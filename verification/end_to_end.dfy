/** From a client's bytes to a worker and back, over four byte streams: client to server, server to worker,
    worker to server, server to client.

    Handler-atomic, with fresh salts and honest workers that answer each push at most once.
 */
module EndToEnd {
  import opened Wire
  import opened KeyHash
  import opened Framing
  import opened Server
  import opened Workers = ServerWorkers
  import opened Tokens = ServerTokens
  import opened Bytes = ServerBytes
  import Launching = ServerLaunching
  import Launcher

  // Types of the frames written ---------------------------------------------------------------------------------

  /** Only replies of jobs are written as responses. */
  ghost predicate NoForgery(s: State) {
    forall c, i :: c in s.clients && 0 <= i < |s.clients[c].written| && !s.clients[c].written[i].why.ForJob? ==>
      s.clients[c].written[i].packet.header.typ != WORKER_RESPONSE
  }

  lemma {:induction false} GivenGives(s: State, a: Step)
    requires Enabled(s, a)
    ensures !a.Answers? ==> Apply(s, a).given == s.given
    ensures a.Answers? ==> exists p :: Apply(s, a).given == s.given + [Answer(a.push, p)]
  {
    if a.Answers? {
      var p := Response(s.jobs[s.pushes[a.push].job].pack.header, a.data);
      hide Response;
      assert Apply(s, a).given == s.given + [Answer(a.push, p)];
    } else {
      hide ParseHeader, Launcher.Drain, ReaderReply, NewWorker, Response, Posted, HearingLink;
    }
  }

  lemma {:induction false} ReplyTypes(h: Header, n: nat)
    requires n < |ReaderReply(Client, h)|
    ensures ReaderReply(Client, h)[n].header.typ != WORKER_RESPONSE
  {
  }

  lemma {:induction false} HeaderWrites(k: Link, h: Header, i: nat)
    requires i < |HeaderLink(k, h).written|
    ensures (i < |k.written| && HeaderLink(k, h).written[i] == k.written[i])
         || HeaderLink(k, h).written[i].packet.header.typ != WORKER_RESPONSE
  {
    var r := ReaderReply(Client, h);
    if i >= |k.written| && i - |k.written| < |r| {
      ReplyTypes(h, i - |k.written|);
    }
    hide ReaderReply;
  }

  /** What a step adds to what is written on a connection. */
  lemma {:induction false} WrittenGives(s: State, a: Step, c: Conn, i: nat)
    requires Enabled(s, a) && c in Apply(s, a).clients && i < |Apply(s, a).clients[c].written|
    requires !Apply(s, a).clients[c].written[i].why.ForJob?
    ensures (c in s.clients && i < |s.clients[c].written| && s.clients[c].written[i] == Apply(s, a).clients[c].written[i])
         || Apply(s, a).clients[c].written[i].packet.header.typ != WORKER_RESPONSE
  {
    if a.HeaderDone? {
      var d, h := s.ops[a.i].c, ParseHeader(Delivered(s, a.i));
      HeaderGives(s, a.i, a.choice, a.noise);
      if c == d {
        HeaderWrites(s.clients[d], h, i);
      }
      hide OnHeader, HeaderLink, HeaderNext, ParseHeader, Delivered;
    } else if a.BodyDone? {
      BodyGives(s, a);
      hide Apply, Delivered;
    } else {
      hide OnHeader, OnBody, ParseHeader, Launcher.Drain, Response, Posted, HearingLink;
    }
  }

  lemma {:induction false} StepKeepsNoForgery(s: State, a: Step)
    requires Enabled(s, a) && NoForgery(s)
    ensures NoForgery(Apply(s, a))
  {
    hide Apply, Enabled;
    var u := Apply(s, a);
    forall c, i | c in u.clients && 0 <= i < |u.clients[c].written| && !u.clients[c].written[i].why.ForJob?
      ensures u.clients[c].written[i].packet.header.typ != WORKER_RESPONSE
    {
      WrittenGives(s, a, c, i);
    }
  }

  /** No push is answered twice. */
  ghost predicate GivenDiffer(s: State) {
    forall g, h :: g in s.given && h in s.given && g.push == h.push ==> g == h
  }

  lemma {:induction false} StepKeepsGivenDiffer(s: State, a: Step)
    requires Enabled(s, a) && GivenDiffer(s) && (a.Answers? ==> Unanswered(s, a.push))
    ensures GivenDiffer(Apply(s, a))
  {
    GivenGives(s, a);
    hide Apply, Enabled;
  }

  // Every run ------------------------------------------------------------------------------------------------------

  ghost predicate Inv(s: State) {
    Tokens.Inv(s) && AllFit(s) && NoForgery(s) && GivenDiffer(s)
  }

  lemma {:induction false} StepKeepsInv(s: State, a: Step)
    requires Inv(s) && Allowed(FAIR, s, a)
    ensures Inv(Apply(s, a))
  {
    hide Tokens.Inv, AllFit, NoForgery, GivenDiffer, Apply, Enabled, KeepsHonest;
    Tokens.StepKeepsInv(s, a);
    StepKeepsFit(s, a);
    StepKeepsNoForgery(s, a);
    StepKeepsGivenDiffer(s, a);
  }

  lemma {:induction false} RunKeepsInv(s: State, steps: seq<Step>)
    requires Inv(s) && IsRun(FAIR, s, steps)
    ensures Inv(After(FAIR, s, steps))
    decreases |steps|
  {
    hide Apply, Inv, Enabled, KeepsHonest;
    if steps != [] {
      StepKeepsInv(s, steps[0]);
      RunKeepsInv(Apply(s, steps[0]), steps[1..]);
    }
  }

  lemma {:induction false} ReachableInv(s: State)
    requires Reachable(FAIR, s)
    ensures Inv(s)
  {
    Tokens.InitInv();
    assert Inv(INIT);
    hide Inv, IsRun, After;
    var steps :| IsRun(FAIR, INIT, steps) && s == After(FAIR, INIT, steps);
    RunKeepsInv(INIT, steps);
  }

  // The server reads what was sent ---------------------------------------------------------------------------------

  lemma {:induction false} HandledIsPrefix(k: Link)
    requires LinkFits(k)
    ensures k.handled <= Decode(Client, k.received)
  {
    var rest := k.received[|Flat(k.handled)|..];
    assert k.received == Flat(k.handled) + rest;
    DecodeFlat(Client, k.handled, rest);
  }

  /** Whatever bytes arrive, the packets handled are a prefix of what the bytes mean; in particular, of the
      packets that a client serialized, if that is where the bytes come from. */
  lemma {:induction false} ServerReadsWhatWasSent(s: State, c: Conn, ps: seq<Packet>)
    requires Reachable(FAIR, s) && c in s.clients
    ensures s.clients[c].handled <= Decode(Client, s.clients[c].received)
    ensures Sendable(Client, ps) && s.clients[c].received <= Flat(StampedAll(ps)) ==>
              s.clients[c].handled <= StampedAll(ps)
  {
    hide Reachable, Decode, Flat, Sendable, StampedAll, LinkFits;
    ReachableInv(s);
    LinkOfConn(s, c);
    hide Inv;
    var k := s.clients[c];
    HandledIsPrefix(k);
    if Sendable(Client, ps) && k.received <= Flat(StampedAll(ps)) {
      StreamRoundTrip(Client, ps, |k.received|);
      assert k.received == Flat(StampedAll(ps))[..|k.received|];
    }
  }

  lemma {:induction false} LinkOfConn(s: State, c: Conn)
    requires Inv(s) && c in s.clients
    ensures LinkFits(s.clients[c])
  {
    assert ConnFits(s, c);
  }

  /** An incomplete packet means nothing yet. */
  lemma {:induction false} IncompleteRest(k: Link, op: Op, rest: seq<byte>)
    requires OpFits(k, op) && k.taken + Need(op) > |k.received| && k.received == Flat(k.handled) + rest
    ensures Decode(Client, rest) == []
  {
    hide Flat;
    if op.ReadBody? {
      ParseOfEncode(op.header);
      var n := |Flat(k.handled)|;
      assert k.taken == n + HEADER_SIZE && k.received[n..] == rest;
      assert rest[..HEADER_SIZE] == k.received[n..k.taken] == k.received[..k.taken][n..] == EncodeHeader(op.header);
      hide EncodeHeader, ParseHeader;
      assert |rest[HEADER_SIZE..]| < BodyLength(Client, op.header);
    }
  }

  lemma {:induction false} WaitingLink(k: Link, op: Op)
    requires LinkFits(k) && OpFits(k, op) && !k.ended && k.taken + Need(op) > |k.received|
    ensures k.handled == Decode(Client, k.received)
  {
    hide Flat, Decode, OpFits, Readable;
    var rest := k.received[|Flat(k.handled)|..];
    assert k.received == Flat(k.handled) + rest;
    DecodeFlat(Client, k.handled, rest);
    IncompleteRest(k, op, rest);
  }

  /** A reader that waits for bytes has handled everything that arrived so far: at most an incomplete packet
      is left. */
  lemma {:induction false} WaitingReaderHandledAll(s: State, i: nat)
    requires Reachable(FAIR, s) && i < |s.ops| && !CanComplete(s, i)
    ensures s.ops[i].c in s.clients
    ensures s.clients[s.ops[i].c].handled == Decode(Client, s.clients[s.ops[i].c].received)
  {
    ReachableInv(s);
    OnlyRead(s, i);
    var c := s.ops[i].c;
    assert ConnFits(s, c) && s.ops[i] in s.ops;
    hide Reachable, Inv, LinkFits, OpFits;
    WaitingLink(s.clients[c], s.ops[i]);
  }

  // The client and the worker decode ----------------------------------------------------------------------------------

  function Packets(ws: seq<Out>): (ps: seq<Packet>)
    ensures |ps| == |ws| && forall i :: 0 <= i < |ws| ==> ps[i] == ws[i].packet
  {
    seq(|ws|, i requires 0 <= i < |ws| => ws[i].packet)
  }

  /** What is pushed to a worker, in order. */
  function PushedTo(ps: seq<Push>, jobs: seq<Job>, w: nat): seq<Packet> {
    if ps == [] then []
    else
      var p := ps[|ps| - 1];
      PushedTo(ps[..|ps| - 1], jobs, w) + if p.w == w && p.job < |jobs| then [jobs[p.job].pack] else []
  }

  lemma {:induction false} PushedToHas(ps: seq<Push>, jobs: seq<Job>, n: nat) returns (at: nat)
    requires n < |ps| && ps[n].job < |jobs|
    ensures at < |PushedTo(ps, jobs, ps[n].w)| && PushedTo(ps, jobs, ps[n].w)[at] == jobs[ps[n].job].pack
  {
    var m := |ps| - 1;
    if n == m {
      at := |PushedTo(ps[..m], jobs, ps[n].w)|;
    } else {
      at := PushedToHas(ps[..m], jobs, n);
    }
  }

  /** The packets that a client decodes from everything written to it. */
  ghost function ClientSees(s: State, c: Conn): seq<Packet>
    requires c in s.clients
  {
    Decode(Peer, Flat(StampedAll(Packets(s.clients[c].written))))
  }

  /** Everything written on the socket of a worker: what its connection was written before it registered, then
      the jobs pushed to it. */
  ghost function ToWorker(s: State, w: nat): seq<Packet>
    requires w < |s.workers| && s.workers[w].c in s.clients
  {
    Packets(s.clients[s.workers[w].c].written) + PushedTo(s.pushes, s.jobs, w)
  }

  /** The packets that a worker decodes from all that. */
  ghost function WorkerSees(s: State, w: nat): seq<Packet>
    requires w < |s.workers| && s.workers[w].c in s.clients
  {
    Decode(Peer, Flat(StampedAll(ToWorker(s, w))))
  }

  /** `serialize` fits all these bodies in its buffers. */
  predicate AllSmall(ps: seq<Packet>) {
    forall i :: 0 <= i < |ps| ==> |ps[i].data| <= MAX_BODY
  }

  lemma {:induction false} SmallIsSendable(ps: seq<Packet>)
    requires AllSmall(ps)
    ensures Sendable(Peer, ps)
  {
    if ps != [] {
      SmallIsSendable(ps[1..]);
    }
  }

  lemma {:induction false} PeerDecodes(ps: seq<Packet>)
    requires AllSmall(ps)
    ensures Decode(Peer, Flat(StampedAll(ps))) == StampedAll(ps)
  {
    SmallIsSendable(ps);
    StreamRoundTrip(Peer, ps, 0);
  }

  function Responses(ps: seq<Packet>): seq<Packet> {
    if ps == [] then []
    else Responses(ps[..|ps| - 1]) + if ps[|ps| - 1].header.typ == WORKER_RESPONSE then [ps[|ps| - 1]] else []
  }

  lemma {:induction false} StampedFront(ps: seq<Packet>)
    requires ps != []
    ensures StampedAll(ps)[..|ps| - 1] == StampedAll(ps[..|ps| - 1])
  {
  }

  lemma {:induction false} ResponsesSnoc(ws: seq<Out>, w: Out)
    ensures Responses(StampedAll(Packets(ws + [w])))
         == Responses(StampedAll(Packets(ws))) + if w.packet.header.typ == WORKER_RESPONSE then [Stamped(w.packet)] else []
  {
    var ps := Packets(ws + [w]);
    StampedFront(ps);
    assert ps[..|ws|] == Packets(ws) && ps[|ws|] == w.packet;
    assert StampedAll(ps)[|ws|] == Stamped(w.packet);
    hide StampedAll, Packets;
  }

  lemma {:induction false} ResponseIsWritten(ws: seq<Out>, n: nat) returns (i: nat)
    requires forall i :: 0 <= i < |ws| ==> (ws[i].packet.header.typ == WORKER_RESPONSE <==> ws[i].why.ForJob?)
    requires n < |Responses(StampedAll(Packets(ws)))|
    ensures |Responses(StampedAll(Packets(ws)))| == |Replied(ws)|
    ensures i < |ws| && ws[i].why.ForJob? && ws[i].why.job == Replied(ws)[n]
    ensures Stamped(ws[i].packet) == Responses(StampedAll(Packets(ws)))[n]
  {
    hide StampedAll, Packets, Stamped;
    if ws != [] {
      var m := |ws| - 1;
      assert ws == ws[..m] + [ws[m]];
      ResponsesSnoc(ws[..m], ws[m]);
      ResponsesCount(ws[..m]);
      hide Responses;
      if n < |Responses(StampedAll(Packets(ws[..m])))| {
        i := ResponseIsWritten(ws[..m], n);
      } else {
        i := m;
      }
    }
  }

  lemma {:induction false} ResponsesCount(ws: seq<Out>)
    requires forall i :: 0 <= i < |ws| ==> (ws[i].packet.header.typ == WORKER_RESPONSE <==> ws[i].why.ForJob?)
    ensures |Responses(StampedAll(Packets(ws)))| == |Replied(ws)|
  {
    if ws != [] {
      var m := |ws| - 1;
      assert ws == ws[..m] + [ws[m]];
      ResponsesSnoc(ws[..m], ws[m]);
      ResponsesCount(ws[..m]);
    }
  }

  lemma {:induction false} TypesTell(s: State, c: Conn)
    requires Inv(s) && c in s.clients
    ensures forall i :: 0 <= i < |s.clients[c].written| ==>
      (s.clients[c].written[i].packet.header.typ == WORKER_RESPONSE <==> s.clients[c].written[i].why.ForJob?)
  {
    hide AllFit, Tokens.Inv, GivenDiffer;
    forall i | 0 <= i < |s.clients[c].written| && s.clients[c].written[i].why.ForJob?
      ensures s.clients[c].written[i].packet.header.typ == WORKER_RESPONSE
    {
      ReplyIsGenuine(s, c, i);
    }
  }

  /** After a connection was handed over, nothing is written on it but the jobs pushed to its worker. */
  lemma {:induction false} NothingWrittenAfterHandOver(s: State, a: Step, c: Conn)
    requires Reachable(FAIR, s) && Enabled(s, a) && c in s.clients && s.clients[c].moved
    ensures c in Apply(s, a).clients && Apply(s, a).clients[c].written == s.clients[c].written
  {
    hide *;
    if a.HeaderDone? || a.BodyDone? {
      Tokens.ReachableInv(s);
      MovedIsNotRead(s, c);
      HandedOverReads(s, a, c);
    } else {
      HandedOverWrites(s, a, c);
    }
  }

  lemma {:induction false} MovedIsNotRead(s: State, c: Conn)
    requires Tokens.Inv(s) && c in s.clients && s.clients[c].moved
    ensures forall i :: 0 <= i < |s.ops| ==> s.ops[i].c != c
  {
    assert Launching.KnownConns(s) && Balanced(s, c);
    hide Tokens.Inv, JobsOf, Replied, Reads;
    NoReads(s.ops, c);
  }

  lemma {:induction false} HandedOverWrites(s: State, a: Step, c: Conn)
    requires !a.HeaderDone? && !a.BodyDone? && Enabled(s, a) && c in s.clients && s.clients[c].moved
    ensures c in Apply(s, a).clients && Apply(s, a).clients[c].written == s.clients[c].written
  {
    hide OnHeader, OnBody, Response, Posted, HearingLink;
  }

  lemma {:induction false} HandedOverReads(s: State, a: Step, c: Conn)
    requires (a.HeaderDone? || a.BodyDone?) && Enabled(s, a) && c in s.clients
    requires forall i :: 0 <= i < |s.ops| ==> s.ops[i].c != c
    ensures c in Apply(s, a).clients && Apply(s, a).clients[c].written == s.clients[c].written
  {
    if a.HeaderDone? {
      HeaderGives(s, a.i, a.choice, a.noise);
      hide OnHeader, HeaderLink, ParseHeader;
    } else {
      BodyGives(s, a);
      hide Apply;
    }
  }

  // The theorem ----------------------------------------------------------------------------------------------------

  /** The n-th response that the client `c` decodes went this way. `note` is a packet that the server decoded,
      as number `note.n`, from the bytes that reached it from the worker `note.w`. The worker said it, as its
      one answer to a push of the n-th job of `c`. The worker had decoded that push from its own connection,
      as its packet number `at`: a request whose body is the body of the n-th trigger in the bytes that `c`
      sent. And the response is that request's header with the worker's data. */
  ghost predicate Served(s: State, c: Conn, n: nat, note: Note, at: nat)
    requires c in s.clients && note.w < |s.workers| && s.workers[note.w].c in s.clients
  {
    var k := s.workers[note.w];
    var requests := WorkerSees(s, note.w);
    var heard := Decode(Worker, k.received);
    var triggers := Triggers(Decode(Client, s.clients[c].received));
    var responses := Responses(ClientSees(s, c));
    && at < |requests| && n < |triggers| && n < |responses| && n < |JobsOf(s.jobs, c)|
    && JobsOf(s.jobs, c)[n] < |s.jobs| && s.jobs[JobsOf(s.jobs, c)[n]].origin == c
    && requests[at].header.typ == WORKER_PUSH_REQUEST && requests[at].data == triggers[n]
    && responses[n].header == requests[at].header.(typ := WORKER_RESPONSE, datasize := |responses[n].data| % U32)
    && heard <= Packs(k.said) && note.n < |heard| && heard[note.n] == responses[n]
    && k.said[note.n].Answered? && k.said[note.n].packet == responses[n]
    && k.said[note.n].push < |s.pushes| && s.pushes[k.said[note.n].push] == Push(note.w, JobsOf(s.jobs, c)[n])
    && forall g :: g in s.given && g.push == k.said[note.n].push ==> g.packet == responses[n]
  }

  /** What the n-th response is, before anything is decoded. */
  lemma {:induction false} ResponseOrigin(s: State, c: Conn, n: nat) returns (note: Note)
    requires Inv(s) && c in s.clients && n < |Responses(StampedAll(Packets(s.clients[c].written)))|
    ensures n < |JobsOf(s.jobs, c)| && Meant(s, note) && IsReply(s, note) && AskedBy(s, note) == JobsOf(s.jobs, c)[n]
    ensures PacketOf(s, note) == Responses(StampedAll(Packets(s.clients[c].written)))[n]
  {
    assert Balanced(s, c) && Tokens.Inv(s);
    hide Inv, Tokens.Inv, Responses, Replied, JobsOf, Stamped, Meant, StampedAll, Packets, IsReply, AskedBy;
    TypesTell(s, c);
    var i := ResponseIsWritten(s.clients[c].written, n);
    ReplyIsGenuine(s, c, i);
    note := s.clients[c].written[i].why.note;
    MeantIsStamped(s, note);
  }

  lemma {:induction false} MeantIsStamped(s: State, note: Note)
    requires Meant(s, note) && IsReply(s, note)
    ensures Stamped(PacketOf(s, note)) == PacketOf(s, note)
  {
  }

  lemma {:induction false} OneAnswer(s: State, a: Answer)
    requires GivenDiffer(s) && a in s.given
    ensures forall g :: g in s.given && g.push == a.push ==> g.packet == a.packet
  {
  }

  /** The n-th trigger handled is the n-th trigger in the bytes received. */
  lemma {:induction false} TriggersPrefix(p: seq<Packet>, q: seq<Packet>)
    requires p <= q
    ensures Triggers(p) <= Triggers(q)
  {
    if |p| < |q| {
      assert p <= q[..|q| - 1];
      TriggersPrefix(p, q[..|q| - 1]);
    } else {
      assert p == q;
    }
  }

  lemma {:induction false} TriggerCarried(s: State, c: Conn, n: nat)
    requires Inv(s) && c in s.clients && n < |JobsOf(s.jobs, c)|
    ensures JobsOf(s.jobs, c)[n] < |s.jobs| && s.jobs[JobsOf(s.jobs, c)[n]].origin == c
    ensures s.jobs[JobsOf(s.jobs, c)[n]].pack.header.typ == WORKER_PUSH_REQUEST
    ensures n < |Triggers(Decode(Client, s.clients[c].received))|
    ensures s.jobs[JobsOf(s.jobs, c)[n]].pack.data == Triggers(Decode(Client, s.clients[c].received))[n]
  {
    var k := s.clients[c];
    assert ConnFits(s, c) && SaltsDiffer(s);
    hide Inv, JobsOf, JobData, Triggers, Decode, Readable;
    HandledIsPrefix(k);
    TriggersPrefix(k.handled, Decode(Client, k.received));
    JobDataAt(s.jobs, c, n);
  }

  lemma {:induction false} RequestDecoded(s: State, push: nat) returns (at: nat)
    requires PushKnown(s, push) && s.workers[s.pushes[push].w].c in s.clients
    requires AllSmall(ToWorker(s, s.pushes[push].w))
    ensures at < |WorkerSees(s, s.pushes[push].w)|
    ensures WorkerSees(s, s.pushes[push].w)[at] == Stamped(s.jobs[s.pushes[push].job].pack)
  {
    hide PushedTo, Decode, AllSmall, Flat, StampedAll, Packets, Stamped;
    var w := s.pushes[push].w;
    PeerDecodes(ToWorker(s, w));
    var i := PushedToHas(s.pushes, s.jobs, push);
    at := |s.clients[s.workers[w].c].written| + i;
    assert ToWorker(s, w)[at] == s.jobs[s.pushes[push].job].pack;
  }

  lemma {:induction false} ResponseDecoded(s: State, c: Conn)
    requires c in s.clients && AllSmall(Packets(s.clients[c].written))
    ensures ClientSees(s, c) == StampedAll(Packets(s.clients[c].written))
  {
    hide Packets, Decode, AllSmall, Flat;
    PeerDecodes(Packets(s.clients[c].written));
  }

  /** What the server decoded from a worker's bytes. */
  lemma {:induction false} ResponseHeard(s: State, note: Note)
    requires Inv(s) && Meant(s, note)
    ensures var k := s.workers[note.w];
      Decode(Worker, k.received) <= Packs(k.said) && note.n < |Decode(Worker, k.received)| &&
      Decode(Worker, k.received)[note.n] == PacketOf(s, note)
    ensures s.workers[note.w].c in s.clients
  {
    var k := s.workers[note.w];
    assert LinkSound(k) && Honest(k) && AllTrue(s) && Launching.KnownConns(s);
    hide Inv, LinkSound, AllTrue, Decode, Honest;
    HeardIsDecoded(k);
    TrueSaysFit(s, note.w);
    DecodedWasSaid(k);
  }

  lemma {:induction false} MeantAnswer(s: State, note: Note)
    requires Meant(s, note) && IsReply(s, note)
    ensures var say := s.workers[note.w].said[note.n];
      && say == Answered(PacketOf(s, note), say.push) && PushKnown(s, say.push)
      && s.pushes[say.push] == Push(note.w, AskedBy(s, note)) && |say.packet.data| < U32
      && say.packet == Response(s.jobs[AskedBy(s, note)].pack.header, say.packet.data)
      && Answer(say.push, say.packet) in s.given
  {
  }

  lemma {:induction false} ServedBy(s: State, c: Conn, n: nat, note: Note, at: nat)
    requires c in s.clients && n < |JobsOf(s.jobs, c)| && n < |Responses(ClientSees(s, c))|
    requires n < |Triggers(Decode(Client, s.clients[c].received))|
    requires note.w < |s.workers| && note.n < |s.workers[note.w].said| && s.workers[note.w].c in s.clients
    requires var k := s.workers[note.w]; var say := k.said[note.n]; var j := JobsOf(s.jobs, c)[n];
      && j < |s.jobs| && s.jobs[j].origin == c && s.jobs[j].pack.header.typ == WORKER_PUSH_REQUEST
      && s.jobs[j].pack.data == Triggers(Decode(Client, s.clients[c].received))[n]
      && say.Answered? && say == Answered(Responses(ClientSees(s, c))[n], say.push)
      && say.push < |s.pushes| && s.pushes[say.push] == Push(note.w, j)
      && |say.packet.data| < U32 && say.packet == Response(s.jobs[j].pack.header, say.packet.data)
      && Decode(Worker, k.received) <= Packs(k.said) && note.n < |Decode(Worker, k.received)|
      && Decode(Worker, k.received)[note.n] == say.packet
      && at < |WorkerSees(s, note.w)| && WorkerSees(s, note.w)[at] == Stamped(s.jobs[j].pack)
      && forall g :: g in s.given && g.push == say.push ==> g.packet == say.packet
    ensures Served(s, c, n, note, at)
  {
    hide JobsOf, Triggers, Responses, Decode, ClientSees, WorkerSees, Packs;
  }

  /** Every response that a client decodes was computed by a worker from that client's own trigger: the n-th
      response from the n-th trigger. The bodies must be such that `serialize` fits them in its buffers. */
  lemma {:induction false} EndToEnd(s: State, c: Conn, n: nat)
    requires Reachable(FAIR, s) && c in s.clients && n < |Responses(ClientSees(s, c))|
    requires AllSmall(Packets(s.clients[c].written))
    requires forall w :: 0 <= w < |s.workers| && s.workers[w].c in s.clients ==> AllSmall(ToWorker(s, w))
    ensures exists note: Note, at: nat ::
      note.w < |s.workers| && s.workers[note.w].c in s.clients && Served(s, c, n, note, at)
  {
    ReachableInv(s);
    assert GivenDiffer(s);
    ResponseDecoded(s, c);
    hide *;
    var note := ResponseOrigin(s, c, n);
    TriggerCarried(s, c, n);
    ResponseHeard(s, note);
    MeantAnswer(s, note);
    MeantBounds(s, note);
    var say := s.workers[note.w].said[note.n];
    OneAnswer(s, Answer(say.push, say.packet));
    var at := RequestDecoded(s, say.push);
    ServedBy(s, c, n, note, at);
  }

  lemma {:induction false} MeantBounds(s: State, note: Note)
    requires Meant(s, note)
    ensures note.w < |s.workers| && note.n < |s.workers[note.w].said|
  {
  }
}
