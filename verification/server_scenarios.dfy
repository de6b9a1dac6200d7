/** Runs of the server: one that meets the assumptions of `ServerTokens` and `EndToEnd`, and three that show
    what those assumptions are needed for. */
module ServerScenarios {
  import opened Wire
  import opened KeyHash
  import opened Framing
  import opened Server
  import opened Workers = ServerWorkers
  import opened Tokens = ServerTokens
  import Launcher

  // Building runs ------------------------------------------------------------------------------------------------

  lemma {:induction false} RunAppend(asm: Assumptions, s: State, steps: seq<Step>, a: Step)
    requires IsRun(asm, s, steps) && Allowed(asm, After(asm, s, steps), a)
    ensures IsRun(asm, s, steps + [a]) && After(asm, s, steps + [a]) == Apply(After(asm, s, steps), a)
    decreases |steps|
  {
    hide Apply, Enabled;
    if steps == [] {
      assert steps + [a] == [a];
      assert [a][1..] == [];
      assert IsRun(asm, Apply(s, a), []);
    } else {
      RunAppend(asm, Apply(s, steps[0]), steps[1..], a);
      assert (steps + [a])[1..] == steps[1..] + [a];
    }
  }

  lemma {:induction false} Extend(asm: Assumptions, s: State, a: Step)
    requires Reachable(asm, s) && Allowed(asm, s, a)
    ensures Reachable(asm, Apply(s, a))
  {
    hide Apply, IsRun, After;
    var steps :| IsRun(asm, INIT, steps) && s == After(asm, INIT, steps);
    RunAppend(asm, INIT, steps, a);
  }

  lemma {:induction false} Initially(asm: Assumptions)
    ensures Reachable(asm, INIT)
  {
    assert IsRun(asm, INIT, []) && After(asm, INIT, []) == INIT;
  }

  const ONES: Quad := [1, 1, 1, 1]

  function HeaderFor(t: byte, body: seq<byte>): Header
    requires |body| < U32
  {
    Header(t, Launcher.ZERO_KEY, ONES, ONES, |body|)
  }

  const FRESH := Link([], 0, [], false, false, [])

  lemma {:induction false} Connect(asm: Assumptions, s: State, c: Conn)
    requires Reachable(asm, s) && !s.crashed && c !in s.clients
    ensures Reachable(asm, s.(clients := s.clients[c := FRESH], ops := s.ops + [ReadHeader(c)]))
  {
    Extend(asm, s, Accept(c));
  }

  ghost predicate ReadsAll(s: State, i: nat, c: Conn) {
    i < |s.ops| && s.ops[i] == ReadHeader(c) && c in s.clients && s.clients[c].taken == |s.clients[c].received|
  }

  /** A packet arrives on a connection that has read everything. */
  ghost function Arrived(s: State, c: Conn, h: Header, body: seq<byte>): State
    requires c in s.clients
  {
    s.(clients := s.clients[c := s.clients[c].(received := s.clients[c].received + (EncodeHeader(h) + body))])
  }

  lemma {:induction false} Hear(asm: Assumptions, s: State, i: nat, c: Conn, h: Header, body: seq<byte>)
    requires Reachable(asm, s) && !s.crashed && ReadsAll(s, i, c)
    ensures var u := Arrived(s, c, h, body);
      Reachable(asm, u) && CanComplete(u, i) && ParseHeader(Delivered(u, i)) == h
  {
    Extend(asm, s, Arrive(c, EncodeHeader(h) + body));
    hide Reachable;
    assert Delivered(Arrived(s, c, h, body), i) == EncodeHeader(h);
    ParseOfEncode(h);
  }

  /** The connection `c` registers as a worker, while no job waits and nothing follows its registration. */
  lemma {:induction false} Register(asm: Assumptions, s: State, i: nat, c: Conn) returns (u: State)
    requires Reachable(asm, s) && !s.crashed && ReadsAll(s, i, c) && s.queue == []
    ensures Reachable(asm, u) && u.workers == s.workers + [WorkerLink(c, [], 0, Start(Worker), [], false)]
    ensures u.clients.Keys == s.clients.Keys && forall d :: d in s.clients && d != c ==> u.clients[d] == s.clients[d]
    ensures u.jobs == s.jobs && u.queue == [] && u.mapped == s.mapped && u.pushes == s.pushes
    ensures u.inFlight == s.inFlight && u.given == s.given && !u.crashed && u.ops == Drop(s.ops, i)
  {
    var h := HeaderFor(WORKER_REG, []);
    Hear(asm, s, i, c, h, []);
    hide Reachable, ParseHeader, Delivered;
    var v := Arrived(s, c, h, []);
    var a := HeaderDone(i, |s.workers|, []);
    NothingFollows(v, i);
    assert v.workers + [NewWorker(v, i, [])] == s.workers + [WorkerLink(c, [], 0, Start(Worker), [], false)];
    Extend(asm, v, a);
    u := Apply(v, a);
    assert u.pushes == s.pushes + PushAll(|s.workers|, []);
  }

  lemma {:induction false} NothingFollows(s: State, i: nat)
    requires CanComplete(s, i) && s.ops[i].ReadHeader?
    requires s.clients[s.ops[i].c].taken + HEADER_SIZE == |s.clients[s.ops[i].c].received|
    ensures NewWorker(s, i, []) == WorkerLink(s.ops[i].c, [], 0, Start(Worker), [], false)
    ensures Honest(NewWorker(s, i, []))
  {
    assert Noises([]) == [];
  }

  /** The connection `c` sends a trigger, whose job goes to the worker `w` at once. */
  lemma {:induction false} Trigger(asm: Assumptions, s: State, i: nat, c: Conn, w: nat, body: seq<byte>) returns (u: State)
    requires Reachable(asm, s) && !s.crashed && ReadsAll(s, i, c) && s.queue == [] && IsValid(s, w) && |body| < U32
    requires asm.freshSalts ==> FreshSalt(s, ONES)
    ensures Reachable(asm, u) && u.workers == s.workers && u.ops == Drop(s.ops, i)
    ensures u.clients.Keys == s.clients.Keys && forall d :: d in s.clients && d != c ==> u.clients[d] == s.clients[d]
    ensures u.clients[c].written == s.clients[c].written && u.clients[c].moved == s.clients[c].moved
    ensures u.jobs == s.jobs + [NewJob(c, body, ONES, ONES)] && u.queue == [] && u.pushes == s.pushes + [Push(w, |s.jobs|)]
    ensures var key := TopicKey(Launcher.ZERO_KEY, ONES);
            u.mapped == if key in s.mapped then s.mapped else s.mapped[key := |s.jobs|]
    ensures u.inFlight == s.inFlight && u.given == s.given && !u.crashed
  {
    var h := HeaderFor(TRIGGER, body);
    Hear(asm, s, i, c, h, body);
    var v := HeaderRead(asm, Arrived(s, c, h, body), i, c, h);
    hide Reachable, ParseHeader;
    var n := |v.ops| - 1;
    assert v.ops[n] == ReadBody(c, h) && CanComplete(v, n);
    assert Delivered(v, n) == body;
    u := BodyRead(asm, v, n, c, w, h, body);
    assert Drop(v.ops, n) == Drop(s.ops, i);
  }

  lemma {:induction false} HeaderRead(asm: Assumptions, s: State, i: nat, c: Conn, h: Header) returns (u: State)
    requires Reachable(asm, s) && !s.crashed && CanComplete(s, i) && s.ops[i] == ReadHeader(c)
    requires ParseHeader(Delivered(s, i)) == h && h.typ == TRIGGER
    ensures Reachable(asm, u) && u.ops == Drop(s.ops, i) + [ReadBody(c, h)]
    ensures u == s.(ops := u.ops, clients := s.clients[c := s.clients[c].(taken := s.clients[c].taken + HEADER_SIZE)])
  {
    hide Reachable, ParseHeader, Delivered;
    Extend(asm, s, HeaderDone(i, 0, []));
    u := Apply(s, HeaderDone(i, 0, []));
  }

  lemma {:induction false} BodyRead(asm: Assumptions, s: State, i: nat, c: Conn, w: nat, h: Header, body: seq<byte>)
    returns (u: State)
    requires Reachable(asm, s) && !s.crashed && CanComplete(s, i) && s.ops[i] == ReadBody(c, h) && h.typ == TRIGGER
    requires Delivered(s, i) == body
    requires s.queue == [] && IsValid(s, w) && (asm.freshSalts ==> FreshSalt(s, ONES))
    ensures Reachable(asm, u) && u.workers == s.workers && u.ops == Drop(s.ops, i)
    ensures u.clients.Keys == s.clients.Keys && forall d :: d in s.clients && d != c ==> u.clients[d] == s.clients[d]
    ensures u.clients[c].written == s.clients[c].written && u.clients[c].moved == s.clients[c].moved
    ensures u.jobs == s.jobs + [NewJob(c, body, ONES, ONES)] && u.queue == [] && u.pushes == s.pushes + [Push(w, |s.jobs|)]
    ensures var key := TopicKey(Launcher.ZERO_KEY, ONES);
            u.mapped == if key in s.mapped then s.mapped else s.mapped[key := |s.jobs|]
    ensures u.inFlight == s.inFlight && u.given == s.given && !u.crashed
  {
    hide Reachable;
    var a := BodyDone(i, w, ONES, ONES);
    Extend(asm, s, a);
    u := Apply(s, a);
  }

  /** The server has read everything that the worker said. */
  ghost predicate Synced(k: WorkerLink) {
    && k.received == Flat(Packs(k.said)) && k.taken == |k.received|
    && k.reader.mode == Worker && k.reader.want == WantHeader
  }

  ghost predicate Echo(s: State, push: nat, p: Packet) {
    push < |s.pushes| && s.pushes[push].job < |s.jobs| &&
    p.header.typ == WORKER_RESPONSE && KeyOf(p.header) == KeyOfJob(s, s.pushes[push].job)
  }

  /** A worker answers a push, and the answer reaches the server and is read there. */
  lemma {:induction false} AnswerPush(asm: Assumptions, s: State, push: nat, data: seq<byte>) returns (u: State, p: Packet)
    requires Reachable(asm, s) && !s.crashed && PushKnown(s, push) && |data| < U32
    requires Synced(s.workers[s.pushes[push].w]) && (asm.answersOnce ==> Unanswered(s, push))
    ensures p.data == data && Echo(s, push, p)
    ensures var w := s.pushes[push].w;
      && Reachable(asm, u) && |u.workers| == |s.workers| && Synced(u.workers[w])
      && u.workers[w].reader.handled == s.workers[w].reader.handled + [p]
      && u.workers[w].said == s.workers[w].said + [Answered(p, push)]
      && u.inFlight == s.inFlight + [Note(w, |s.workers[w].reader.handled|)]
    ensures u == s.(workers := u.workers, inFlight := u.inFlight, given := u.given)
  {
    var w := s.pushes[push].w;
    p := Response(s.jobs[s.pushes[push].job].pack.header, data);
    assert Echo(s, push, p) && p.header.datasize == |p.data|;
    hide Reachable, Flat, Response, Echo, Frame, Unanswered, Start;
    FrameOf(p);
    u := SayAnswer(asm, s, push, data, p);
    u := ReachAll(asm, u, w, p);
    u := HearHeader(asm, u, w, p);
    u := HearBody(asm, u, w, p);
    assert u.workers[w].received == Flat(Packs(u.workers[w].said));
  }

  lemma {:induction false} FrameOf(p: Packet)
    ensures |Frame(p)| == HEADER_SIZE + |p.data| && Frame(p)[HEADER_SIZE..] == p.data
  {
  }

  lemma {:induction false} SayAnswer(asm: Assumptions, s: State, push: nat, data: seq<byte>, p: Packet) returns (u: State)
    requires Reachable(asm, s) && !s.crashed && PushKnown(s, push) && |data| < U32
    requires p == Response(s.jobs[s.pushes[push].job].pack.header, data) && (asm.answersOnce ==> Unanswered(s, push))
    ensures Reachable(asm, u) && u == s.(workers := u.workers, given := u.given)
    ensures var w := s.pushes[push].w; var k := s.workers[w];
      u.workers == s.workers[w := k.(said := k.said + [Answered(p, push)])]
  {
    hide Reachable;
    Extend(asm, s, Answers(push, data));
    u := Apply(s, Answers(push, data));
  }

  lemma {:induction false} ReachAll(asm: Assumptions, s: State, w: nat, p: Packet) returns (u: State)
    requires Reachable(asm, s) && !s.crashed && w < |s.workers|
    requires var k := s.workers[w];
      && k.said != [] && k.said[|k.said| - 1].packet == p
      && k.received == Flat(Packs(k.said[..|k.said| - 1]))
    ensures Reachable(asm, u) && u == s.(workers := u.workers)
    ensures var k := s.workers[w]; u.workers == s.workers[w := k.(received := k.received + Frame(p))]
    ensures w < |u.workers| && u.workers[w].received == Flat(Packs(s.workers[w].said))
  {
    hide Reachable;
    var k := s.workers[w];
    var n := |k.said| - 1;
    assert Packs(k.said) == Packs(k.said[..n]) + [p];
    FlatSnoc(Packs(k.said[..n]), p);
    Extend(asm, s, Reaches(w, Frame(p)));
    u := Apply(s, Reaches(w, Frame(p)));
  }

  lemma {:induction false} HearHeader(asm: Assumptions, s: State, w: nat, p: Packet) returns (u: State)
    requires Reachable(asm, s) && !s.crashed && w < |s.workers| && p.header.typ == WORKER_RESPONSE
    requires var k := s.workers[w];
      && k.reader.mode == Worker && k.reader.want == WantHeader
      && k.taken + |Frame(p)| == |k.received| && k.received[k.taken..] == Frame(p)
    ensures Reachable(asm, u) && u == s.(workers := u.workers)
    ensures var k := s.workers[w];
      u.workers == s.workers[w := k.(taken := k.taken + HEADER_SIZE, reader := k.reader.(want := WantBody(p.header)))]
  {
    hide Reachable;
    var k := s.workers[w];
    assert Heard(k) == Frame(p)[..HEADER_SIZE] == EncodeHeader(p.header);
    ParseOfEncode(p.header);
    Extend(asm, s, Hears(w));
    u := Apply(s, Hears(w));
    hide ParseHeader;
    assert u.inFlight == s.inFlight;
  }

  lemma {:induction false} HearBody(asm: Assumptions, s: State, w: nat, p: Packet) returns (u: State)
    requires Reachable(asm, s) && !s.crashed && w < |s.workers| && p.header.typ == WORKER_RESPONSE
    requires p.header.datasize == |p.data|
    requires var k := s.workers[w];
      && k.reader.mode == Worker && k.reader.want == WantBody(p.header)
      && k.taken + |p.data| == |k.received| && k.received[k.taken..] == p.data
    ensures Reachable(asm, u) && u == s.(workers := u.workers, inFlight := u.inFlight)
    ensures u.inFlight == s.inFlight + [Note(w, |s.workers[w].reader.handled|)]
    ensures var k := s.workers[w];
      u.workers == s.workers[w := k.(taken := |k.received|,
                                     reader := k.reader.(want := WantHeader, handled := k.reader.handled + [p]))]
  {
    hide Reachable;
    assert Heard(s.workers[w]) == p.data;
    Extend(asm, s, Hears(w));
    u := Apply(s, Hears(w));
  }

  lemma {:induction false} Handle(asm: Assumptions, s: State, i: nat, p: Packet, j: JobId, c: Conn) returns (u: State)
    requires Reachable(asm, s) && !s.crashed && i < |s.inFlight| && NoteKnown(s, s.inFlight[i])
    requires p == PacketOf(s, s.inFlight[i]) && p.header.typ == WORKER_RESPONSE
    requires KeyOf(p.header) in s.mapped && s.mapped[KeyOf(p.header)] == j < |s.jobs|
    requires s.jobs[j].origin == c && c in s.clients && !s.clients[c].moved
    ensures Reachable(asm, u) && u.ops == s.ops + [ReadHeader(c)]
    ensures u.clients == s.clients[c := s.clients[c].(written := s.clients[c].written + [Out(p, ForJob(j, s.inFlight[i]))])]
    ensures u == s.(ops := u.ops, clients := u.clients, inFlight := Drop(s.inFlight, i))
  {
    hide Reachable;
    Extend(asm, s, NoteHandled(i));
    u := Apply(s, NoteHandled(i));
  }

  // The scenarios --------------------------------------------------------------------------------------------------

  /** Two clients, 0 and 1, and one worker, registered on connection 2. */
  lemma {:induction false} Setting(asm: Assumptions) returns (s: State)
    ensures Reachable(asm, s) && !s.crashed && s.ops == [ReadHeader(0), ReadHeader(1)]
    ensures 0 in s.clients && 1 in s.clients && s.clients[0] == FRESH && s.clients[1] == FRESH
    ensures s.workers == [WorkerLink(2, [], 0, Start(Worker), [], false)] && Synced(s.workers[0])
    ensures s.jobs == [] && s.queue == [] && s.mapped == map[] && s.pushes == []
    ensures s.inFlight == [] && s.given == []
  {
    hide Reachable;
    Initially(asm);
    s := INIT;
    Connect(asm, s, 0);
    s := s.(clients := s.clients[0 := FRESH], ops := s.ops + [ReadHeader(0)]);
    Connect(asm, s, 1);
    s := s.(clients := s.clients[1 := FRESH], ops := s.ops + [ReadHeader(1)]);
    Connect(asm, s, 2);
    s := s.(clients := s.clients[2 := FRESH], ops := s.ops + [ReadHeader(2)]);
    s := Register(asm, s, 2, 2);
    assert Packs([]) == [];
  }

  lemma {:induction false} NewJobIs(c: Conn, body: seq<byte>)
    ensures NewJob(c, body, ONES, ONES).origin == c && NewJob(c, body, ONES, ONES).pack.data == body
    ensures KeyOf(NewJob(c, body, ONES, ONES).pack.header) == TopicKey(Launcher.ZERO_KEY, ONES)
  {
  }

  /** Under all assumptions, any trigger can get any reply, and its connection reads on. */
  lemma {:induction false} TriggerIsServed(body: seq<byte>, data: seq<byte>)
    requires |body| < U32 && |data| < U32
    ensures exists s ::
      && Reachable(FAIR, s) && 0 in s.clients && s.ops == [ReadHeader(1), ReadHeader(0)]
      && |s.clients[0].written| == 1 && s.clients[0].written[0].why == ForJob(0, Note(0, 0))
      && s.clients[0].written[0].packet.data == data
      && |s.jobs| == 1 && s.jobs[0].origin == 0 && s.jobs[0].pack.data == body
  {
    hide Reachable, Apply, Enabled, NewJob;
    var s := Setting(FAIR);
    s := Trigger(FAIR, s, 0, 0, 0, body);
    assert s.ops == [ReadHeader(1)];
    NewJobIs(0, body);
    var p;
    s, p := AnswerPush(FAIR, s, 0, data);
    s := Handle(FAIR, s, 0, p, 0, 0);
  }

  /** When `gen` draws one salt twice, the reply to one client's trigger is written to the other. */
  lemma {:induction false} SaltCollisionMisroutes(data: seq<byte>)
    requires |data| < U32
    ensures exists s ::
      && Reachable(Assumptions(false, true, true), s) && 0 in s.clients && |s.clients[0].written| == 1 && |s.jobs| == 2
      && s.clients[0].written[0].why == ForJob(0, Note(0, 0)) && s.clients[0].written[0].packet.data == data
      && AskedBy(s, Note(0, 0)) == 1 && s.jobs[1].origin == 1
  {
    hide Reachable, Apply, Enabled, NewJob;
    var asm := Assumptions(false, true, true);
    var s := Setting(asm);
    s := Trigger(asm, s, 0, 0, 0, [1]);
    assert s.ops == [ReadHeader(1)];
    s := Trigger(asm, s, 0, 1, 0, [2]);
    NewJobIs(0, [1]);
    NewJobIs(1, [2]);
    var p;
    s, p := AnswerPush(asm, s, 1, data);
    s := Handle(asm, s, 0, p, 0, 0);
  }

  /** When a worker answers one push twice, its client's connection has two reads outstanding at once. */
  lemma {:induction false} DoubleAnswerDoublesReads(data: seq<byte>)
    requires |data| < U32
    ensures exists s :: Reachable(Assumptions(true, false, true), s) && 0 in s.clients && Reads(s.ops, 0) == 2
  {
    hide Reachable, Apply, Enabled, NewJob;
    var asm := Assumptions(true, false, true);
    var s := Setting(asm);
    s := Trigger(asm, s, 0, 0, 0, [1]);
    assert s.ops == [ReadHeader(1)];
    NewJobIs(0, [1]);
    var p, q;
    s, p := AnswerPush(asm, s, 0, data);
    s, q := AnswerPush(asm, s, 0, data);
    s := Handle(asm, s, 0, p, 0, 0);
    s := Handle(asm, s, 0, q, 0, 0);
    assert s.ops == [ReadHeader(1), ReadHeader(0), ReadHeader(0)];
    ReadsAppend([ReadHeader(1), ReadHeader(0)], ReadHeader(0), 0);
    ReadsAppend([ReadHeader(1)], ReadHeader(0), 0);
    assert [ReadHeader(1)][..0] == [];
  }

  /** When bytes that no honest worker says arrive behind a registration, a response to no job crashes the server. */
  lemma {:induction false} ForgedResponseCrashes()
    ensures exists s :: Reachable(Assumptions(true, true, false), s) && s.crashed
  {
    hide Reachable, Apply, Enabled, NewJob;
    var asm := Assumptions(true, true, false);
    var s := Setting(asm);
    var p := Packet(HeaderFor(WORKER_RESPONSE, []), []);
    s := Forge(asm, s, 0, p);
    s := HearHeader(asm, s, 0, p);
    s := HearBody(asm, s, 0, p);
    CrashOn(asm, s);
  }

  lemma {:induction false} Forge(asm: Assumptions, s: State, w: nat, p: Packet) returns (u: State)
    requires Reachable(asm, s) && !s.crashed && w < |s.workers| && !asm.honestWorkers
    ensures Reachable(asm, u) && u == s.(workers := u.workers)
    ensures u.workers == s.workers[w := s.workers[w].(received := s.workers[w].received + Frame(p))]
  {
    hide Reachable;
    Extend(asm, s, Reaches(w, Frame(p)));
    u := Apply(s, Reaches(w, Frame(p)));
  }

  lemma {:induction false} CrashOn(asm: Assumptions, s: State)
    requires Reachable(asm, s) && !s.crashed && |s.inFlight| == 1 && NoteKnown(s, s.inFlight[0]) && s.mapped == map[]
    ensures exists u :: Reachable(asm, u) && u.crashed
  {
    hide Reachable;
    Extend(asm, s, NoteHandled(0));
    assert Apply(s, NoteHandled(0)).crashed;
  }
}
