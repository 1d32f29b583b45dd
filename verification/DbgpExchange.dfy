/**
  Sessions down to the bytes: the engine's answers are packets, the network delivers them in pieces
  of any size at any time, ReadResponse takes them off the connection, and what it returns is
  dispatched under the verb of the command just written.
 */
module DbgpExchange {
  import opened DbgpStream
  import D = DbgpSession
  import R = DbgpRuns

  /** A packet of the engine, and what parsing it gives. */
  datatype Answer = Answer(packet: Packet, response: D.Response)

  /**
    `conn` is the session's connection, `network` the bytes not delivered yet; `answers` is all that
    the engine has sent in this session and `contents` what ReadResponse has returned in it.
   */
  datatype State = State(s: R.State, conn: Conn, network: string, answers: seq<Answer>, contents: seq<string>)

  const START := State(R.START, Conn("", []), "", [], [])

  datatype Event =
    | Connect(answer: Answer, pieces: seq<string>)
    | Answers(answer: Answer)
    | Arrive(size: nat)
    | Receive
    | Local(e: R.Event)

  /**
    The engine sends the init packet and waits. ReadResponse returns when it has both fields of a
    packet; a connection that ends before is one of the Local events.
   */
  predicate Can(t: State, e: Event) {
    match e
    case Connect(a, pieces) => R.Can(t.s, R.Accept(a.response)) && IsPacket(a.packet) && Concat(pieces) == Encode(a.packet)
    case Answers(a) => R.InSession(t.s.pc) && R.Can(t.s, R.EngineAnswers(a.response)) && IsPacket(a.packet)
    case Arrive(n) => 0 < n <= |t.network|
    case Receive => t.s.pc.Awaiting? && !Respond(t.conn).0.isError
    case Local(e) => !e.Accept? && !e.EngineAnswers? && !(e.Read? && e.succeeds) && R.Can(t.s, e)
  }

  /** A response read while the engine has announced none cannot happen (ReceivesAnAnswer); nothing is done then. */
  function Next(t: State, e: Event): State
    requires Can(t, e)
  {
    match e
    case Connect(a, pieces) =>
      State(R.Do(t.s, R.Accept(a.response)), SessionConn(Conn("", pieces)), "", [a], [Respond(Conn("", pieces)).0.contents])
    case Answers(a) =>
      t.(s := R.Do(t.s, R.EngineAnswers(a.response)), network := t.network + Encode(a.packet), answers := t.answers + [a])
    case Arrive(n) =>
      t.(conn := t.conn.(incoming := t.conn.incoming + [t.network[..n]]), network := t.network[n..])
    case Receive =>
      if !R.Can(t.s, R.Read(true)) then t
      else
        var (r, conn) := Respond(t.conn);
        t.(s := R.Do(t.s, R.Read(true)), conn := conn, contents := t.contents + [r.contents])
    case Local(e) => t.(s := R.Do(t.s, e))
  }

  predicate IsRun(run: seq<State>, events: seq<Event>) {
    && |run| == |events| + 1
    && run[0] == START
    && forall n :: 0 <= n < |events| ==> Can(run[n], events[n]) && run[n + 1] == Next(run[n], events[n])
  }

  function Packets(answers: seq<Answer>): seq<Packet> {
    seq(|answers|, k requires 0 <= k < |answers| => answers[k].packet)
  }

  /** What was dispatched so far is what the engine sent first. */
  ghost predicate Matched(t: State) {
    && |t.contents| == |t.s.dispatched|
    && |t.answers| == |t.s.dispatched| + |t.s.channel|
    && (forall k :: 0 <= k < |t.s.dispatched| ==>
         t.contents[k] == t.answers[k].packet.xml && t.s.dispatched[k].response == t.answers[k].response)
    && (forall k :: 0 <= k < |t.s.channel| ==> t.s.channel[k] == t.answers[|t.s.dispatched| + k].response)
  }

  /** The bytes under way are the packets not yet dispatched. */
  ghost predicate BytesKnown(t: State) {
    && (forall k :: 0 <= k < |t.answers| ==> IsPacket(t.answers[k].packet))
    && |t.s.dispatched| <= |t.answers|
    && (R.InSession(t.s.pc) ==>
         Stream(t.conn) + t.network == EncodeAll(Packets(t.answers[|t.s.dispatched|..])))
  }

  ghost predicate Inv(t: State) {
    R.LockStep(t.s) && Matched(t) && BytesKnown(t)
  }

  // ---------------------------------------------------------------- bytes

  lemma {:induction false} EncodeMore(ps: seq<Packet>, p: Packet)
    ensures EncodeAll(ps + [p]) == EncodeAll(ps) + Encode(p)
  {
    if ps == [] {
      assert [p][1..] == [];
      assert Encode(p) + "" == Encode(p) == "" + Encode(p);
    } else {
      assert (ps + [p])[1..] == ps[1..] + [p];
      EncodeMore(ps[1..], p);
    }
  }

  lemma {:induction false} ConcatMore(pieces: seq<string>, piece: string)
    ensures Concat(pieces + [piece]) == Concat(pieces) + piece
  {
    if pieces == [] {
      assert [piece][1..] == [];
      assert piece + "" == piece == "" + piece;
    } else {
      assert (pieces + [piece])[1..] == pieces[1..] + [piece];
      ConcatMore(pieces[1..], piece);
    }
  }

  lemma FieldMeansNul(start: string)
    requires TakeField(start).0.Field?
    ensures NUL in start
  {
    assert start[IndexOfNul(start)] == NUL;
  }

  /** A response that is complete does not change when more bytes follow. */
  lemma CompleteStays(start: string, more: string)
    requires !Read(start).0.isError
    ensures Read(start + more) == (Read(start).0, Read(start).1 + more)
  {
    FieldMeansNul(start);
    FieldOfStart(start, more);
    var (length, rest) := TakeField(start);
    if length.text != "close" {
      FieldMeansNul(rest);
      FieldOfStart(rest, more);
    }
  }

  lemma NothingToRead(start: string, more: string)
    requires start + more == ""
    ensures Read(start).0.isError
  {
  }

  // ---------------------------------------------------------------- steps

  /** When ReadResponse returns, the engine's next answer is there, and it is what was returned. */
  lemma ReceivesAnAnswer(t: State)
    requires Inv(t) && Can(t, Receive)
    ensures R.Can(t.s, R.Read(true))
    ensures var k := |t.s.dispatched|; var (r, conn) := Respond(t.conn);
      && k < |t.answers| && r.contents == t.answers[k].packet.xml
      && Stream(conn) + t.network == EncodeAll(Packets(t.answers[k + 1..]))
  {
    var k := |t.s.dispatched|;
    var ps := Packets(t.answers[k..]);
    ResponseIsOfBytes(t.conn);
    var start := Stream(t.conn);
    if ps == [] {
      NothingToRead(start, t.network);
    } else {
      assert ps[0] == t.answers[k].packet;
      assert ps[1..] == Packets(t.answers[k + 1..]);
      CompleteStays(start, t.network);
      PacketReads(ps[0], EncodeAll(ps[1..]));
    }
  }

  lemma ConnectKeeps(t: State, a: Answer, pieces: seq<string>)
    requires Inv(t) && Can(t, Connect(a, pieces))
    ensures Inv(Next(t, Connect(a, pieces)))
  {
    LockStepLosesNothing(pieces, a.packet);
    R.StepKeepsLockStep(t.s, R.Accept(a.response));
  }

  lemma AnswersKeeps(t: State, a: Answer)
    requires Inv(t) && Can(t, Answers(a))
    ensures Inv(Next(t, Answers(a)))
  {
    var k := |t.s.dispatched|;
    R.StepKeepsLockStep(t.s, R.EngineAnswers(a.response));
    EncodeMore(Packets(t.answers[k..]), a.packet);
    assert Packets((t.answers + [a])[k..]) == Packets(t.answers[k..]) + [a.packet];
    assert Stream(t.conn) + (t.network + Encode(a.packet)) == Stream(t.conn) + t.network + Encode(a.packet);
  }

  lemma ArriveKeeps(t: State, n: nat)
    requires Inv(t) && Can(t, Arrive(n))
    ensures Inv(Next(t, Arrive(n)))
  {
    var piece := t.network[..n];
    ConcatMore(t.conn.incoming, piece);
    assert t.network == piece + t.network[n..];
    assert Stream(Next(t, Arrive(n)).conn) + t.network[n..] == Stream(t.conn) + t.network;
  }

  lemma ReceiveMatches(t: State)
    requires Matched(t) && Can(t, Receive) && R.Can(t.s, R.Read(true)) && |t.s.dispatched| < |t.answers|
    requires Respond(t.conn).0.contents == t.answers[|t.s.dispatched|].packet.xml
    ensures Matched(Next(t, Receive))
  {
    assert t.s.channel[0] == t.answers[|t.s.dispatched|].response;
  }

  lemma ReceiveKeeps(t: State)
    requires Inv(t) && Can(t, Receive)
    ensures Inv(Next(t, Receive))
  {
    ReceivesAnAnswer(t);
    R.StepKeepsLockStep(t.s, R.Read(true));
    ReceiveMatches(t);
  }

  /** A local event neither sends nor dispatches an answer, and begins no session. */
  lemma LocalChangesNoAnswer(s: R.State, e: R.Event)
    requires R.Can(s, e) && !e.Accept? && !e.EngineAnswers? && !(e.Read? && e.succeeds)
    ensures R.Do(s, e).channel == s.channel && R.Do(s, e).dispatched == s.dispatched
    ensures R.InSession(R.Do(s, e).pc) ==> R.InSession(s.pc)
  {
  }

  lemma LocalKeeps(t: State, e: R.Event)
    requires Inv(t) && Can(t, Local(e))
    ensures Inv(Next(t, Local(e)))
  {
    R.StepKeepsLockStep(t.s, e);
    LocalChangesNoAnswer(t.s, e);
    SameAnswers(t, R.Do(t.s, e));
  }

  lemma SameAnswers(t: State, s: R.State)
    requires Matched(t) && BytesKnown(t) && s.channel == t.s.channel && s.dispatched == t.s.dispatched
    requires R.InSession(s.pc) ==> R.InSession(t.s.pc)
    ensures Matched(t.(s := s)) && BytesKnown(t.(s := s))
  {
  }

  lemma StepKeeps(t: State, e: Event)
    requires Inv(t) && Can(t, e)
    ensures Inv(Next(t, e))
  {
    match e
    case Connect(a, pieces) => ConnectKeeps(t, a, pieces);
    case Answers(a) => AnswersKeeps(t, a);
    case Arrive(n) => ArriveKeeps(t, n);
    case Receive => ReceiveKeeps(t);
    case Local(e) => LocalKeeps(t, e);
  }

  lemma {:induction false} RunKeeps(run: seq<State>, events: seq<Event>, n: nat)
    requires IsRun(run, events) && n < |run|
    ensures Inv(run[n])
  {
    if n > 0 {
      RunKeeps(run, events, n - 1);
      StepKeeps(run[n - 1], events[n - 1]);
    }
  }

  /**
    However the bytes are divided and whenever they arrive, what was read i-th in a session is the
    payload of the engine's i-th packet, and it was dispatched under the verb of the i-th command
    written, the init packet under init.
   */
  lemma PacketsMeetTheirCommands(run: seq<State>, events: seq<Event>, n: nat, i: nat)
    requires IsRun(run, events) && n < |run| && i < |run[n].s.dispatched|
    ensures var t := run[n];
      && |t.contents| == |t.s.dispatched| <= |t.answers|
      && t.contents[i] == t.answers[i].packet.xml && t.s.dispatched[i].response == t.answers[i].response
      && (if i == 0 then t.s.dispatched[i].verb == "init"
          else i <= |t.s.sent| && t.s.dispatched[i].verb == D.Verb(t.s.sent[i - 1].text))
  {
    RunKeeps(run, events, n);
  }

  /** No byte is lost in a session: all that the engine sent has been read, is in the buffer, or is still under way. */
  lemma NoByteIsLost(run: seq<State>, events: seq<Event>, n: nat)
    requires IsRun(run, events) && n < |run| && R.InSession(run[n].s.pc)
    ensures |run[n].s.dispatched| <= |run[n].answers|
    ensures Stream(run[n].conn) + run[n].network == EncodeAll(Packets(run[n].answers[|run[n].s.dispatched|..]))
  {
    RunKeeps(run, events, n);
  }
}
