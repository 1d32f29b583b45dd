/**
  ReadResponse: message packets of the DBGp protocol (section 6) taken from a socket that delivers
  its bytes in pieces of any size.
 */
module DbgpStream {
  const NUL := '\0'

  /** What read_until and getline leave behind: bytes received but not taken, and pieces still to come. */
  datatype Conn = Conn(buffer: string, incoming: seq<string>)

  function Concat(chunks: seq<string>): string {
    if chunks == [] then "" else chunks[0] + Concat(chunks[1..])
  }

  /** Everything that has not been taken yet. */
  function Stream(c: Conn): string {
    c.buffer + Concat(c.incoming)
  }

  /** Position of the first NUL, or the length. */
  function IndexOfNul(s: string): (k: nat)
    ensures k <= |s|
    ensures k < |s| ==> s[k] == NUL
    ensures forall j :: 0 <= j < k ==> s[j] != NUL
  {
    if s == "" || s[0] == NUL then 0 else 1 + IndexOfNul(s[1..])
  }

  datatype Field = NoField | Field(text: string)

  /** The bytes up to the first NUL, and those after it. */
  function TakeField(stream: string): (Field, string) {
    var k := IndexOfNul(stream);
    if k == |stream| then (NoField, stream) else (Field(stream[..k]), stream[k + 1..])
  }

  datatype Response = Response(contents: string, isError: bool)

  /** The result of ReadResponse as a function of the bytes alone, and the bytes it leaves. */
  function Read(stream: string): (Response, string) {
    var (length, rest) := TakeField(stream);
    if length.NoField? then (Response("", true), rest)
    else if length.text == "close" then (Response("close", false), rest)
    else
      var (xml, last) := TakeField(rest);
      if xml.NoField? then (Response(length.text, true), last) else (Response(xml.text, false), last)
  }

  // ---------------------------------------------------------------- piece by piece

  /** One read_until: pieces are received until a NUL is in the buffer or the connection ends. */
  function Filled(c: Conn): Conn
    decreases |c.incoming|
  {
    if NUL in c.buffer || c.incoming == [] then c else Filled(Conn(c.buffer + c.incoming[0], c.incoming[1..]))
  }

  /** One read_until and getline. */
  function Take(c: Conn): (Field, Conn) {
    var f := Filled(c);
    var (field, rest) := TakeField(f.buffer);
    (field, f.(buffer := rest))
  }

  /** ReadResponse on a connection. */
  function Respond(c: Conn): (Response, Conn) {
    var (length, d) := Take(c);
    if length.NoField? then (Response("", true), d)
    else if length.text == "close" then (Response("close", false), d)
    else
      var (xml, e) := Take(d);
      if xml.NoField? then (Response(length.text, true), e) else (Response(xml.text, false), e)
  }

  /** Receiving changes only where the bytes are, and finds a NUL if there is one anywhere. */
  lemma {:induction false} FilledKeeps(c: Conn)
    ensures Stream(Filled(c)) == Stream(c)
    ensures NUL in Filled(c).buffer || Filled(c).incoming == []
    decreases |c.incoming|
  {
    if NUL !in c.buffer && c.incoming != [] {
      FilledKeeps(Conn(c.buffer + c.incoming[0], c.incoming[1..]));
      assert c.buffer + c.incoming[0] + Concat(c.incoming[1..]) == c.buffer + Concat(c.incoming);
    }
  }

  lemma FieldOfStart(start: string, more: string)
    requires NUL in start
    ensures var (field, rest) := TakeField(start); TakeField(start + more) == (field, rest + more)
  {
    var k := IndexOfNul(start);
    var j :| 0 <= j < |start| && start[j] == NUL;
    assert k <= j;
    var m := IndexOfNul(start + more);
    assert (start + more)[k] == NUL;
    assert m < |start + more|;
    assert m == k;
    assert (start + more)[..k] == start[..k] && (start + more)[k + 1..] == start[k + 1..] + more;
  }

  /** One field does not depend on the pieces. */
  lemma TakeIsOfBytes(c: Conn)
    ensures var (field, d) := Take(c); TakeField(Stream(c)) == (field, Stream(d))
  {
    var f := Filled(c);
    FilledKeeps(c);
    if NUL in f.buffer {
      FieldOfStart(f.buffer, Concat(f.incoming));
    } else {
      assert Stream(f) == f.buffer;
      assert IndexOfNul(f.buffer) == |f.buffer|;
    }
  }

  /** However the bytes are divided, the answer is that of the bytes. */
  lemma ResponseIsOfBytes(c: Conn)
    ensures var (r, d) := Respond(c); Read(Stream(c)) == (r, Stream(d))
  {
    TakeIsOfBytes(c);
    var (length, d) := Take(c);
    if length.Field? && length.text != "close" {
      TakeIsOfBytes(d);
    }
  }

  class Connection {
    var Buffer: string
    var Incoming: seq<string>

    ghost function Contents(): Conn
      reads this
    {
      Conn(Buffer, Incoming)
    }

    constructor (buffer: string, incoming: seq<string>)
      ensures Contents() == Conn(buffer, incoming)
    {
      Buffer, Incoming := buffer, incoming;
    }

    /** The number of bytes up to and with the first NUL; zero, and an error, at the end of the connection. */
    method ReadUntil() returns (read: nat, isError: bool)
      modifies this
      ensures Contents() == Filled(old(Contents()))
      ensures isError <==> IndexOfNul(Buffer) == |Buffer|
      ensures read == if isError then 0 else IndexOfNul(Buffer) + 1
    {
      while NUL !in Buffer && Incoming != []
        invariant Filled(Contents()) == Filled(old(Contents()))
        decreases |Incoming|
      {
        Buffer, Incoming := Buffer + Incoming[0], Incoming[1..];
      }
      var k := IndexOfNul(Buffer);
      isError := k == |Buffer|;
      read := if isError then 0 else k + 1;
    }

    /** getline with NUL as the end of the line. */
    method GetLine() returns (line: string)
      requires IndexOfNul(Buffer) < |Buffer|
      modifies this`Buffer
      ensures (Field(line), Buffer) == TakeField(old(Buffer))
    {
      var k := IndexOfNul(Buffer);
      line := Buffer[..k];
      Buffer := Buffer[k + 1..];
    }

    method ReadResponse() returns (r: Response)
      modifies this
      ensures (r, Contents()) == Respond(old(Contents()))
      ensures (r, Stream(Contents())) == Read(old(Stream(Contents())))
    {
      ResponseIsOfBytes(Contents());
      var read, isError := ReadUntil();
      if read <= 0 {
        return Response("", true);
      }
      var contents := GetLine();
      if contents == "close" {
        return Response(contents, false);
      }
      read, isError := ReadUntil();
      if read <= 0 {
        return Response(contents, true);
      }
      contents := GetLine();
      r := Response(contents, false);
    }
  }

  // ---------------------------------------------------------------- packets

  datatype Packet = Packet(length: string, xml: string)

  predicate IsPacket(p: Packet) {
    NUL !in p.length && NUL !in p.xml && p.length != "close"
  }

  function Encode(p: Packet): string {
    p.length + [NUL] + p.xml + [NUL]
  }

  function EncodeAll(ps: seq<Packet>): string {
    if ps == [] then "" else Encode(ps[0]) + EncodeAll(ps[1..])
  }

  function Payloads(ps: seq<Packet>): seq<Response> {
    if ps == [] then [] else [Response(ps[0].xml, false)] + Payloads(ps[1..])
  }

  /** The contents of n successive responses, and the bytes left. */
  function ReadMany(stream: string, n: nat): (seq<Response>, string) {
    if n == 0 then ([], stream)
    else
      var (r, rest) := Read(stream);
      var (rs, last) := ReadMany(rest, n - 1);
      ([r] + rs, last)
  }

  lemma NulEnds(s: string, t: string)
    requires NUL !in s
    ensures TakeField(s + [NUL] + t) == (Field(s), t)
  {
    var text := s + [NUL] + t;
    var k := IndexOfNul(text);
    assert text[|s|] == NUL;
    assert forall j :: 0 <= j < |s| ==> text[j] == s[j];
    assert k == |s|;
    assert text[..|s|] == s && text[|s| + 1..] == t;
  }

  lemma PacketReads(p: Packet, tail: string)
    requires IsPacket(p)
    ensures Read(Encode(p) + tail) == (Response(p.xml, false), tail)
  {
    var rest := p.xml + [NUL] + tail;
    assert Encode(p) + tail == p.length + [NUL] + rest;
    NulEnds(p.length, rest);
    NulEnds(p.xml, tail);
  }

  lemma NoNulNoField(s: string)
    requires NUL !in s
    ensures TakeField(s) == (NoField, s)
  {
  }

  /**
    Every stream there is, by its first two NULs: the second field is the answer, unless the first says
    "close", which is answered at once; without a NUL it is an error, with what was read so far.
   */
  lemma ReadExactly(a: string, b: string, rest: string)
    requires '\0' !in a && '\0' !in b
    ensures Read(a) == (Response("", true), a)
    ensures Read("close" + ['\0'] + rest) == (Response("close", false), rest)
    ensures a != "close" ==> Read(a + ['\0'] + b) == (Response(a, true), b)
    ensures a != "close" ==> Read(a + ['\0'] + b + ['\0'] + rest) == (Response(b, false), rest)
  {
    NoNulNoField(a);
    NulEnds("close", rest);
    NulEnds(a, b);
    NoNulNoField(b);
    var more := b + ['\0'] + rest;
    assert a + ['\0'] + b + ['\0'] + rest == a + ['\0'] + more;
    NulEnds(a, more);
    NulEnds(b, rest);
  }

  /** Any stream of packets gives back exactly their payloads, in order. */
  lemma {:induction false} PacketsRead(ps: seq<Packet>, tail: string)
    requires forall k :: 0 <= k < |ps| ==> IsPacket(ps[k])
    ensures ReadMany(EncodeAll(ps) + tail, |ps|) == (Payloads(ps), tail)
  {
    if ps == [] {
      assert EncodeAll(ps) + tail == tail;
    } else {
      var rest := EncodeAll(ps[1..]) + tail;
      assert EncodeAll(ps) + tail == Encode(ps[0]) + rest;
      PacketReads(ps[0], rest);
      PacketsRead(ps[1..], tail);
    }
  }

  /** n responses read one after the other, over any division of the stream into pieces. */
  function RespondMany(c: Conn, n: nat): (seq<Response>, Conn)
    decreases n
  {
    if n == 0 then ([], c)
    else
      var (r, d) := Respond(c);
      var (rs, e) := RespondMany(d, n - 1);
      ([r] + rs, e)
  }

  lemma {:induction false} RespondManyIsOfBytes(c: Conn, n: nat)
    ensures var (rs, d) := RespondMany(c, n); ReadMany(Stream(c), n) == (rs, Stream(d))
    decreases n
  {
    if n > 0 {
      ResponseIsOfBytes(c);
      RespondManyIsOfBytes(Respond(c).1, n - 1);
    }
  }

  /**
    Framing does not depend on the pieces: a stream of packets, however it is divided and however
    much of it has already been received, is read as its payloads in order.
   */
  lemma FramingIsIndependentOfPieces(c: Conn, ps: seq<Packet>, tail: string)
    requires forall k :: 0 <= k < |ps| ==> IsPacket(ps[k])
    requires Stream(c) == EncodeAll(ps) + tail
    ensures var (rs, d) := RespondMany(c, |ps|); rs == Payloads(ps) && Stream(d) == tail
  {
    RespondManyIsOfBytes(c, |ps|);
    PacketsRead(ps, tail);
  }

  // ---------------------------------------------------------------- two buffers

  /**
    BackgroundWork reads the init packet with a buffer of its own, and SessionWork starts with an
    empty one: what had already been received after the init packet is gone.
   */
  function SessionConn(c: Conn): Conn {
    Conn("", Respond(c).1.incoming)
  }

  /** Some number of pieces make up exactly the given text. */
  predicate EndsAtPiece(chunks: seq<string>, text: string) {
    exists k :: 0 <= k <= |chunks| && Concat(chunks[..k]) == text
  }

  lemma {:induction false} ConcatSplit(chunks: seq<string>, k: nat)
    requires k <= |chunks|
    ensures Concat(chunks) == Concat(chunks[..k]) + Concat(chunks[k..])
  {
    if k > 0 {
      ConcatSplit(chunks[1..], k - 1);
      assert chunks[..k][1..] == chunks[1..][..k - 1] && chunks[1..][k - 1..] == chunks[k..];
    } else {
      assert chunks[k..] == chunks && chunks[..k] == [];
    }
  }

  /** read_until receives a number of whole pieces, and none that it can do without. */
  lemma {:induction false} FilledReceives(c: Conn) returns (k: nat)
    ensures k <= |c.incoming| && Filled(c).incoming == c.incoming[k..]
    ensures Filled(c).buffer == c.buffer + Concat(c.incoming[..k])
    ensures k > 0 ==> NUL !in c.buffer + Concat(c.incoming[..k - 1])
    decreases |c.incoming|
  {
    if NUL in c.buffer || c.incoming == [] {
      k := 0;
      assert c.incoming[..k] == [] && c.incoming[k..] == c.incoming;
    } else {
      var d := Conn(c.buffer + c.incoming[0], c.incoming[1..]);
      var j := FilledReceives(d);
      k := j + 1;
      assert c.incoming[..k][1..] == d.incoming[..j] && c.incoming[k..] == d.incoming[j..];
      assert c.buffer + Concat(c.incoming[..k]) == d.buffer + Concat(d.incoming[..j]);
      if j > 0 {
        assert c.incoming[..k - 1][1..] == d.incoming[..j - 1];
        assert c.buffer + Concat(c.incoming[..k - 1]) == d.buffer + Concat(d.incoming[..j - 1]);
      } else {
        assert c.incoming[..k - 1] == [] && c.buffer + "" == c.buffer;
      }
    }
  }

  lemma WithoutNul(p: string, more: string, s: string, t: string)
    requires p + more == s + [NUL] + t && NUL !in p
    ensures |p| <= |s|
  {
    assert (p + more)[|s|] == NUL;
  }

  lemma FieldText(buffer: string)
    requires TakeField(buffer).0.Field?
    ensures var (field, rest) := TakeField(buffer); buffer == field.text + [NUL] + rest
  {
    var k := IndexOfNul(buffer);
    assert buffer == buffer[..k] + [buffer[k]] + buffer[k + 1..];
  }

  /** One field takes whole pieces off the connection, and none that it can do without. */
  lemma TakeReceives(c: Conn, s: string, t: string) returns (k: nat)
    requires Stream(c) == s + [NUL] + t && NUL !in s
    ensures k <= |c.incoming| && Take(c).1.incoming == c.incoming[k..]
    ensures Take(c).0 == Field(s) && Stream(Take(c).1) == t
    ensures c.buffer + Concat(c.incoming[..k]) == s + [NUL] + Take(c).1.buffer
    ensures k > 0 ==> |c.buffer + Concat(c.incoming[..k - 1])| <= |s|
  {
    k := FilledReceives(c);
    TakeIsOfBytes(c);
    NulEnds(s, t);
    FieldText(Filled(c).buffer);
    if k > 0 {
      NoPieceTooMany(c, s, t, k - 1);
    }
  }

  lemma NoPieceTooMany(c: Conn, s: string, t: string, k: nat)
    requires Stream(c) == s + [NUL] + t && k <= |c.incoming| && NUL !in c.buffer + Concat(c.incoming[..k])
    ensures |c.buffer + Concat(c.incoming[..k])| <= |s|
  {
    ConcatSplit(c.incoming, k);
    var p, more := c.buffer + Concat(c.incoming[..k]), Concat(c.incoming[k..]);
    assert p + more == Stream(c);
    WithoutNul(p, more, s, t);
  }

  /** The two fields of the init packet: j pieces for the first, m more for the second. */
  lemma TwoFields(chunks: seq<string>, init: Packet, tail: string) returns (j: nat, m: nat, middle: string)
    requires IsPacket(init) && Concat(chunks) == Encode(init) + tail
    ensures j + m <= |chunks|
    ensures Concat(chunks[..j]) == init.length + [NUL] + middle
    ensures middle + Concat(chunks[j..][..m]) == init.xml + [NUL] + Respond(Conn("", chunks)).1.buffer
    ensures j > 0 ==> |Concat(chunks[..j - 1])| <= |init.length|
    ensures m > 0 ==> |middle + Concat(chunks[j..][..m - 1])| <= |init.xml|
  {
    var c := Conn("", chunks);
    var afterLength := init.xml + [NUL] + tail;
    assert Stream(c) == Concat(chunks) == init.length + [NUL] + afterLength;
    j := TakeReceives(c, init.length, afterLength);
    var d := Take(c).1;
    m := TakeReceives(d, init.xml, tail);
    middle := d.buffer;
    StartsEmpty(chunks[..j]);
    if j > 0 {
      StartsEmpty(chunks[..j - 1]);
    }
    assert Respond(c).1 == Take(d).1;
  }

  lemma StartsEmpty(chunks: seq<string>)
    ensures "" + Concat(chunks) == Concat(chunks)
  {
  }

  /** The init packet takes whole pieces, the last of which ends it or begins before its end. */
  lemma InitReceives(chunks: seq<string>, init: Packet, tail: string) returns (k: nat)
    requires IsPacket(init) && Concat(chunks) == Encode(init) + tail
    ensures 0 < k <= |chunks|
    ensures Concat(chunks[..k]) == Encode(init) + Respond(Conn("", chunks)).1.buffer
    ensures |Concat(chunks[..k - 1])| < |Encode(init)|
  {
    var left := Respond(Conn("", chunks)).1.buffer;
    var j, m, middle := TwoFields(chunks, init, tail);
    k := j + m;
    Glue(chunks, j, m, init.length + [NUL], middle, init.xml + [NUL], left);
    assert Encode(init) + left == init.length + [NUL] + (init.xml + [NUL]) + left;
    assert chunks[..0] == [];
    if m > 0 {
      PiecesJoin(chunks, j, m - 1);
    }
  }

  lemma Glue(chunks: seq<string>, j: nat, m: nat, a: string, middle: string, b: string, rest: string)
    requires j + m <= |chunks| && Concat(chunks[..j]) == a + middle
    requires middle + Concat(chunks[j..][..m]) == b + rest
    ensures Concat(chunks[..j + m]) == a + b + rest
  {
    PiecesJoin(chunks, j, m);
    assert a + middle + Concat(chunks[j..][..m]) == a + (middle + Concat(chunks[j..][..m]));
  }

  lemma PiecesJoin(chunks: seq<string>, j: nat, m: nat)
    requires j + m <= |chunks|
    ensures Concat(chunks[..j + m]) == Concat(chunks[..j]) + Concat(chunks[j..][..m])
  {
    ConcatSplit(chunks[..j + m], j);
    assert chunks[..j + m][..j] == chunks[..j] && chunks[..j + m][j..] == chunks[j..][..m];
  }

  lemma MorePieces(chunks: seq<string>, j: nat, k: nat)
    requires j <= k <= |chunks|
    ensures |Concat(chunks[..j])| <= |Concat(chunks[..k])|
  {
    PiecesJoin(chunks, j, k - j);
  }

  /** The session sees all the bytes after the init packet exactly when the packet ends where a piece ends. */
  lemma SessionSeesTheRest(chunks: seq<string>, init: Packet, tail: string)
    requires IsPacket(init) && Concat(chunks) == Encode(init) + tail
    ensures Stream(SessionConn(Conn("", chunks))) == tail <==> EndsAtPiece(chunks, Encode(init))
  {
    var c := Conn("", chunks);
    ResponseIsOfBytes(c);
    PacketReads(init, tail);
    var d := Respond(c).1;
    assert Stream(c) == Concat(chunks);
    assert tail == d.buffer + Concat(d.incoming);
    assert Stream(SessionConn(c)) == Concat(d.incoming);
    var k := InitReceives(chunks, init, tail);
    if d.buffer == "" {
      assert Concat(chunks[..k]) == Encode(init);
    }
    if j :| 0 <= j <= |chunks| && Concat(chunks[..j]) == Encode(init) {
      if j < k {
        MorePieces(chunks, j, k - 1);
      } else {
        MorePieces(chunks, k, j);
      }
    }
  }

  /** In a lock-step exchange nothing follows the init packet before the first command, and nothing is lost. */
  lemma LockStepLosesNothing(chunks: seq<string>, init: Packet)
    requires IsPacket(init) && Concat(chunks) == Encode(init)
    ensures Stream(SessionConn(Conn("", chunks))) == "" && Respond(Conn("", chunks)).0 == Response(init.xml, false)
  {
    assert Encode(init) + "" == Encode(init) && chunks[..|chunks|] == chunks;
    SessionSeesTheRest(chunks, init, "");
    ResponseIsOfBytes(Conn("", chunks));
    PacketReads(init, "");
    assert Stream(Conn("", chunks)) == Concat(chunks);
  }

  const INIT_PACKET := Packet("6", "<init>")
  const NEXT_PACKET := Packet("7", "<stack>")

  lemma OnePiece(piece: string)
    ensures Concat([piece]) == piece && Concat([piece][..0]) == "" && Concat([piece][..1]) == piece
  {
    assert [piece][1..] == [] && [piece][..1] == [piece];
    assert piece + "" == piece;
  }

  lemma InsideOnePiece(start: string, rest: string)
    requires start != "" && rest != ""
    ensures !EndsAtPiece([start + rest], start)
  {
    OnePiece(start + rest);
    forall k | 0 <= k <= 1 ensures Concat([start + rest][..k]) != start {
      assert |start| < |start + rest|;
    }
  }

  /** An answer that arrives in one piece with the init packet never reaches the session. */
  lemma LosesWhatCameWithInit()
    ensures var piece := Encode(INIT_PACKET) + Encode(NEXT_PACKET);
      && Stream(Conn("", [piece])) == piece
      && Respond(Conn("", [piece])).0 == Response("<init>", false)
      && Stream(SessionConn(Conn("", [piece]))) != Encode(NEXT_PACKET)
  {
    var rest := Encode(NEXT_PACKET);
    var piece := Encode(INIT_PACKET) + rest;
    OnePiece(piece);
    ResponseIsOfBytes(Conn("", [piece]));
    PacketReads(INIT_PACKET, rest);
    assert "" + piece == piece;
    InsideOnePiece(Encode(INIT_PACKET), rest);
    SessionSeesTheRest([piece], INIT_PACKET, rest);
  }
}
