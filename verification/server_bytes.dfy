/** What the server reads: the packets handled on a connection are what its bytes mean, and its jobs carry
    its triggers' bodies.

    Handler-atomic, with fresh salts and honest workers that answer each push at most once.
 */
module ServerBytes {
  import opened Wire
  import opened KeyHash
  import opened Framing
  import opened Server
  import opened Workers = ServerWorkers
  import opened Tokens = ServerTokens
  import Launching = ServerLaunching
  import Launcher

  // One connection ----------------------------------------------------------------------------------------------

  /** The bytes taken so far are the packets handled and then `tail`. */
  predicate Boundary(k: Link, tail: seq<byte>) {
    k.taken <= |k.received| && k.received[..k.taken] == Flat(k.handled) + tail
  }

  predicate OpFits(k: Link, op: Op) {
    match op
    case ReadHeader(_) => Boundary(k, [])
    case ReadBody(_, h) => Boundary(k, EncodeHeader(h)) && CarriesBody(Client, h.typ)
  }

  predicate LinkFits(k: Link) {
    && Readable(Client, k.handled) && Flat(k.handled) <= k.received
    && (!k.ended ==> ModeAfter(Client, k.handled) == Client)
  }

  /** The bodies of the triggers among some packets, in order. */
  function Triggers(ps: seq<Packet>): seq<seq<byte>> {
    if ps == [] then []
    else Triggers(ps[..|ps| - 1]) + if ps[|ps| - 1].header.typ == TRIGGER then [ps[|ps| - 1].data] else []
  }

  /** What the jobs of a connection carry, in order. */
  function JobData(jobs: seq<Job>, c: Conn): seq<seq<byte>> {
    if jobs == [] then []
    else JobData(jobs[..|jobs| - 1], c) + if jobs[|jobs| - 1].origin == c then [jobs[|jobs| - 1].pack.data] else []
  }

  lemma {:induction false} TriggersAppend(ps: seq<Packet>, p: Packet)
    ensures Triggers(ps + [p]) == Triggers(ps) + if p.header.typ == TRIGGER then [p.data] else []
  {
    assert (ps + [p])[..|ps|] == ps;
  }

  lemma {:induction false} JobDataAppend(jobs: seq<Job>, job: Job, c: Conn)
    ensures JobData(jobs + [job], c) == JobData(jobs, c) + if job.origin == c then [job.pack.data] else []
  {
    assert (jobs + [job])[..|jobs|] == jobs;
  }

  lemma {:induction false} JobDataOfNobody(jobs: seq<Job>, c: Conn)
    requires forall j :: 0 <= j < |jobs| ==> jobs[j].origin != c
    ensures JobData(jobs, c) == []
  {
    if jobs != [] {
      JobDataOfNobody(jobs[..|jobs| - 1], c);
    }
  }

  lemma {:induction false} JobDataAt(jobs: seq<Job>, c: Conn, n: nat)
    requires n < |JobsOf(jobs, c)|
    ensures |JobData(jobs, c)| == |JobsOf(jobs, c)|
    ensures JobsOf(jobs, c)[n] < |jobs| && jobs[JobsOf(jobs, c)[n]].origin == c
    ensures JobData(jobs, c)[n] == jobs[JobsOf(jobs, c)[n]].pack.data
  {
    var m := |jobs| - 1;
    if n < |JobsOf(jobs[..m], c)| {
      JobDataAt(jobs[..m], c, n);
    } else {
      JobDataLength(jobs[..m], c);
    }
  }

  lemma {:induction false} JobDataLength(jobs: seq<Job>, c: Conn)
    ensures |JobData(jobs, c)| == |JobsOf(jobs, c)|
  {
    if jobs != [] {
      JobDataLength(jobs[..|jobs| - 1], c);
    }
  }

  lemma {:induction false} NoReads(ops: seq<Op>, c: Conn)
    requires Reads(ops, c) == 0
    ensures forall op :: op in ops ==> op.c != c
  {
    forall op | op in ops
      ensures op.c != c
    {
      var i :| 0 <= i < |ops| && ops[i] == op;
      if op.c == c {
        ReadsAtLeast(ops, i);
      }
    }
  }

  /** The reader of `c` stands at a packet boundary or between a header and its body; while a job of `c` is
      open it stands at a boundary; and the jobs of `c` carry what its triggers carried. */
  ghost predicate ConnFits(s: State, c: Conn)
    requires c in s.clients
  {
    var k := s.clients[c];
    && LinkFits(k)
    && (forall op :: op in s.ops && op.c == c ==> OpFits(k, op))
    && (|JobsOf(s.jobs, c)| != |Replied(k.written)| ==> Boundary(k, []))
    && JobData(s.jobs, c) == Triggers(k.handled)
  }

  ghost predicate AllFit(s: State) {
    forall c :: c in s.clients ==> ConnFits(s, c)
  }

  // Reads ----------------------------------------------------------------------------------------------------------

  function Chunk(k: Link, n: nat): (b: seq<byte>)
    requires k.taken + n <= |k.received|
    ensures |b| == n
  {
    k.received[k.taken..k.taken + n]
  }

  lemma {:induction false} HeaderTaken(k: Link)
    requires Boundary(k, []) && LinkFits(k) && k.taken + HEADER_SIZE <= |k.received|
    ensures var h := ParseHeader(Chunk(k, HEADER_SIZE)); Boundary(k.(taken := k.taken + HEADER_SIZE), EncodeHeader(h))
  {
    EncodeOfParse(Chunk(k, HEADER_SIZE));
    TakeMore(k.received, k.taken, HEADER_SIZE);
  }

  /** A packet whose last byte has just been taken. */
  lemma {:induction false} PacketHandled(k: Link, p: Packet, n: nat)
    requires LinkFits(k) && !k.ended && k.taken + n <= |k.received|
    requires k.received[..k.taken + n] == Flat(k.handled) + Frame(p)
    requires KnownType(p.header.typ) && |p.data| == BodyLength(Client, p.header)
    ensures var q := k.(taken := k.taken + n, handled := k.handled + [p]);
      && Boundary(q, []) && Readable(Client, q.handled) && Flat(q.handled) <= k.received
      && ModeAfter(Client, q.handled) == NextMode(Client, p.header.typ)
  {
    FlatSnoc(k.handled, p);
    ReadableAppend(Client, k.handled, p);
    assert Flat(k.handled + [p]) + [] == Flat(k.handled + [p]);
    assert k.received[..k.taken + n] <= k.received;
  }

  lemma {:induction false} BareHeaderHandled(k: Link)
    requires Boundary(k, []) && LinkFits(k) && !k.ended && k.taken + HEADER_SIZE <= |k.received|
    requires var t := ParseHeader(Chunk(k, HEADER_SIZE)).typ; KnownType(t) && !CarriesBody(Client, t)
    ensures var h := ParseHeader(Chunk(k, HEADER_SIZE));
      var q := k.(taken := k.taken + HEADER_SIZE, handled := k.handled + [Packet(h, [])]);
      && Boundary(q, []) && Readable(Client, q.handled) && Flat(q.handled) <= k.received
      && ModeAfter(Client, q.handled) == NextMode(Client, h.typ)
      && Triggers(q.handled) == Triggers(k.handled)
  {
    var h := ParseHeader(Chunk(k, HEADER_SIZE));
    HeaderTaken(k);
    assert Frame(Packet(h, [])) == EncodeHeader(h);
    PacketHandled(k, Packet(h, []), HEADER_SIZE);
    TriggersAppend(k.handled, Packet(h, []));
  }

  lemma {:induction false} BodyHandled(k: Link, h: Header)
    requires Boundary(k, EncodeHeader(h)) && LinkFits(k) && !k.ended && k.taken + h.datasize <= |k.received|
    requires CarriesBody(Client, h.typ)
    ensures var p := Packet(h, Chunk(k, h.datasize));
      var q := k.(taken := k.taken + h.datasize, handled := k.handled + [p]);
      && Boundary(q, []) && LinkFits(q)
      && Triggers(q.handled) == Triggers(k.handled) + if h.typ == TRIGGER then [p.data] else []
  {
    var p := Packet(h, Chunk(k, h.datasize));
    TakeMore(k.received, k.taken, h.datasize);
    Regroup(Flat(k.handled), EncodeHeader(h), p.data);
    PacketHandled(k, p, h.datasize);
    TriggersAppend(k.handled, p);
  }

  // Steps ------------------------------------------------------------------------------------------------------------

  /** A connection that a step leaves alone. */
  lemma {:induction false} OtherConnFits(s: State, u: State, d: Conn)
    requires d in s.clients && ConnFits(s, d)
    requires d in u.clients && u.clients[d] == s.clients[d]
    requires forall op :: op in u.ops && op.c == d ==> op in s.ops
    requires JobsOf(u.jobs, d) == JobsOf(s.jobs, d) && JobData(u.jobs, d) == JobData(s.jobs, d)
    ensures ConnFits(u, d)
  {
  }

  /** A step that concerns just the connection `c`. */
  lemma {:induction false} OneConnMoves(s: State, u: State, c: Conn)
    requires AllFit(s) && c in u.clients && ConnFits(u, c)
    requires forall d :: d in u.clients && d != c ==>
      && d in s.clients && u.clients[d] == s.clients[d]
      && JobsOf(u.jobs, d) == JobsOf(s.jobs, d) && JobData(u.jobs, d) == JobData(s.jobs, d)
    requires forall op :: op in u.ops && op.c != c ==> op in s.ops
    ensures AllFit(u)
  {
    hide ConnFits;
    forall d | d in u.clients && d != c
      ensures ConnFits(u, d)
    {
      OtherConnFits(s, u, d);
    }
  }

  /** While a read is outstanding on a connection it is the only one, the connection is open, and no job of it is. */
  lemma {:induction false} OnlyRead(s: State, i: nat)
    requires Tokens.Inv(s) && i < |s.ops|
    ensures s.ops[i].c in s.clients
    ensures var c := s.ops[i].c; var k := s.clients[c];
      && !k.ended && |JobsOf(s.jobs, c)| == |Replied(k.written)|
      && forall op :: op in Drop(s.ops, i) ==> op.c != c
  {
    var c := s.ops[i].c;
    assert Launching.KnownConns(s);
    assert Balanced(s, c);
    ReadsAtLeast(s.ops, i);
    ReadsDrop(s.ops, i, c);
    NoReads(Drop(s.ops, i), c);
  }

  lemma {:induction false} OpsMoved(ops: seq<Op>, i: nat, c: Conn, next: seq<Op>)
    requires i < |ops| && forall op :: op in Drop(ops, i) ==> op.c != c
    requires forall op :: op in next ==> op.c == c
    ensures forall op :: op in Drop(ops, i) + next && op.c == c ==> op in next
    ensures forall op :: op in Drop(ops, i) + next && op.c != c ==> op in ops
  {
    forall op | op in Drop(ops, i)
      ensures op in ops
    {
    }
    hide Drop;
  }

  /** A completed or failed read on `c` was replaced by `next`, and the jobs of `c` carry its triggers. */
  lemma {:induction false} ConnMoved(s: State, i: nat, u: State, c: Conn, k: Link, next: seq<Op>)
    requires Tokens.Inv(s) && i < |s.ops| && s.ops[i].c == c && c in u.clients && u.clients[c] == k
    requires u.ops == Drop(s.ops, i) + next && forall op :: op in next ==> op.c == c && OpFits(k, op)
    requires LinkFits(k) && (|JobsOf(u.jobs, c)| != |Replied(k.written)| ==> Boundary(k, []))
    requires JobData(u.jobs, c) == Triggers(k.handled)
    ensures ConnFits(u, c) && forall op :: op in u.ops && op.c != c ==> op in s.ops
  {
    hide *;
    OnlyRead(s, i);
    OpsMoved(s.ops, i, c, next);
    ConnFitsIf(u, c);
  }

  lemma {:induction false} ConnFitsIf(u: State, c: Conn)
    requires c in u.clients && LinkFits(u.clients[c])
    requires forall op :: op in u.ops && op.c == c ==> OpFits(u.clients[c], op)
    requires |JobsOf(u.jobs, c)| != |Replied(u.clients[c].written)| ==> Boundary(u.clients[c], [])
    requires JobData(u.jobs, c) == Triggers(u.clients[c].handled)
    ensures ConnFits(u, c)
  {
    hide LinkFits, OpFits, JobsOf, Replied, Boundary, JobData, Triggers;
  }

  lemma {:induction false} JobsCarryTriggers(s: State, c: Conn)
    requires AllFit(s) && c in s.clients
    ensures JobData(s.jobs, c) == Triggers(s.clients[c].handled)
  {
    hide JobData, Triggers, LinkFits, OpFits, JobsOf, Replied, Boundary;
    assert ConnFits(s, c);
  }

  lemma {:induction false} ReadReplaced(s: State, i: nat, u: State, c: Conn, k: Link, next: seq<Op>)
    requires Tokens.Inv(s) && AllFit(s) && i < |s.ops| && s.ops[i].c == c
    requires c in s.clients && u.clients == s.clients[c := k] && u.jobs == s.jobs
    requires u.ops == Drop(s.ops, i) + next && forall op :: op in next ==> op.c == c && OpFits(k, op)
    requires LinkFits(k) && Replied(k.written) == Replied(s.clients[c].written)
    requires Triggers(k.handled) == Triggers(s.clients[c].handled)
    ensures AllFit(u)
  {
    hide *;
    JobsCarryTriggers(s, c);
    OnlyRead(s, i);
    ConnMoved(s, i, u, c, k, next);
    OneConnMoves(s, u, c);
  }

  lemma {:induction false} HeaderLinkFits(k: Link, c: Conn)
    requires Boundary(k, []) && LinkFits(k) && !k.ended && k.taken + HEADER_SIZE <= |k.received|
    ensures var h := ParseHeader(Chunk(k, HEADER_SIZE)); var q := HeaderLink(k, h);
      && LinkFits(q) && Triggers(q.handled) == Triggers(k.handled) && Replied(q.written) == Replied(k.written)
      && forall op :: op in HeaderNext(c, h) ==> op.c == c && OpFits(q, op)
  {
    var h := ParseHeader(Chunk(k, HEADER_SIZE));
    HeaderTaken(k);
    HeaderLinkWrites(k, c, h);
    hide ReaderReply;
    if KnownType(h.typ) && !CarriesBody(Client, h.typ) {
      BareHeaderHandled(k);
    }
  }

  lemma {:induction false} HeaderKeepsFit(s: State, i: nat, choice: nat, noise: seq<Packet>)
    requires Tokens.Inv(s) && AllFit(s) && Enabled(s, HeaderDone(i, choice, noise))
    ensures AllFit(OnHeader(s, i, choice, noise))
  {
    var c, h := s.ops[i].c, ParseHeader(Delivered(s, i));
    var k := s.clients[c];
    assert CanComplete(s, i) && Need(s.ops[i]) == HEADER_SIZE && k.taken + HEADER_SIZE <= |k.received|;
    assert OpFits(k, s.ops[i]) == Boundary(k, []);
    hide *;
    AtRead(s, i);
    HeaderGives(s, i, choice, noise);
    HeaderLinkFits(k, c);
    ReadReplaced(s, i, OnHeader(s, i, choice, noise), c, HeaderLink(k, h), HeaderNext(c, h));
  }

  lemma {:induction false} BodyLinkFits(k: Link, c: Conn, h: Header)
    requires Boundary(k, EncodeHeader(h)) && LinkFits(k) && !k.ended && k.taken + h.datasize <= |k.received|
    requires CarriesBody(Client, h.typ)
    ensures var p := Packet(h, Chunk(k, h.datasize)); var q := BodyLink(k, p);
      && LinkFits(q) && Boundary(q, []) && OpFits(q, ReadHeader(c)) && q.written == k.written
      && Triggers(q.handled) == Triggers(k.handled) + if h.typ == TRIGGER then [p.data] else []
  {
    BodyHandled(k, h);
  }

  lemma {:induction false} OpFitsLink(s: State, i: nat)
    requires AllFit(s) && i < |s.ops| && s.ops[i].c in s.clients
    ensures OpFits(s.clients[s.ops[i].c], s.ops[i]) && LinkFits(s.clients[s.ops[i].c])
  {
    hide JobData, Triggers, LinkFits, OpFits, JobsOf, Replied, Boundary;
    assert ConnFits(s, s.ops[i].c) && s.ops[i] in s.ops;
  }

  /** The outstanding read fits its connection. */
  lemma {:induction false} AtRead(s: State, i: nat)
    requires Tokens.Inv(s) && AllFit(s) && CanComplete(s, i)
    ensures var k := s.clients[s.ops[i].c];
      OpFits(k, s.ops[i]) && LinkFits(k) && !k.ended && Delivered(s, i) == Chunk(k, Need(s.ops[i]))
  {
    hide Tokens.Inv, AllFit, LinkFits, OpFits;
    OnlyRead(s, i);
    OpFitsLink(s, i);
  }

  lemma {:induction false} BodyKeepsFit(s: State, a: Step)
    requires Tokens.Inv(s) && AllFit(s) && a.BodyDone? && Enabled(s, a)
    ensures AllFit(Apply(s, a))
  {
    var ReadBody(c, h) := s.ops[a.i];
    var k := s.clients[c];
    var job := NewJob(c, Delivered(s, a.i), a.sequence, a.salt);
    assert job.pack.data == Delivered(s, a.i) && job.origin == c && Need(s.ops[a.i]) == h.datasize;
    hide Tokens.Inv, AllFit, Apply, Readable, ModeAfter, Flat, Triggers, Replied, JobsOf, JobData;
    AtRead(s, a.i);
    BodyGives(s, a);
    hide Enabled, Delivered, NewJob;
    BodyLinkFits(k, c, h);
    hide *;
    if h.typ == TRIGGER {
      TriggerOpensJob(s, Apply(s, a), a.i, c, BodyLink(k, Packet(h, Chunk(k, h.datasize))), job);
    } else {
      ReadReplaced(s, a.i, Apply(s, a), c, BodyLink(k, Packet(h, Chunk(k, h.datasize))), [ReadHeader(c)]);
    }
  }

  lemma {:induction false} JobAdded(jobs: seq<Job>, job: Job)
    ensures forall d :: JobsOf(jobs + [job], d) == JobsOf(jobs, d) + if d == job.origin then [|jobs|] else []
    ensures forall d :: JobData(jobs + [job], d) == JobData(jobs, d) + if d == job.origin then [job.pack.data] else []
  {
    forall d: Conn
      ensures JobsOf(jobs + [job], d) == JobsOf(jobs, d) + if d == job.origin then [|jobs|] else []
      ensures JobData(jobs + [job], d) == JobData(jobs, d) + if d == job.origin then [job.pack.data] else []
    {
      JobsOfAppend(jobs, job, d);
      JobDataAppend(jobs, job, d);
    }
  }

  lemma {:induction false} TriggerOpensJob(s: State, u: State, i: nat, c: Conn, k: Link, job: Job)
    requires Tokens.Inv(s) && AllFit(s) && i < |s.ops| && s.ops[i].c == c
    requires c in s.clients && u.clients == s.clients[c := k] && u.jobs == s.jobs + [job] && job.origin == c
    requires u.ops == Drop(s.ops, i) && LinkFits(k) && Boundary(k, []) && k.written == s.clients[c].written
    requires Triggers(k.handled) == Triggers(s.clients[c].handled) + [job.pack.data]
    ensures AllFit(u)
  {
    hide *;
    JobsCarryTriggers(s, c);
    assert u.ops == Drop(s.ops, i) + [];
    JobAdded(s.jobs, job);
    ConnMoved(s, i, u, c, k, []);
    OneConnMoves(s, u, c);
  }

  lemma {:induction false} NewConnFits(s: State, u: State, c: Conn)
    requires Launching.KnownConns(s) && c !in s.clients && c in u.clients
    requires u.clients[c] == Link([], 0, [], false, false, []) && u.jobs == s.jobs && u.ops == s.ops + [ReadHeader(c)]
    ensures ConnFits(u, c)
  {
    JobsOfNobody(s.jobs, c);
    JobDataOfNobody(s.jobs, c);
    assert forall op :: op in s.ops ==> op.c != c;
  }

  lemma {:induction false} AcceptGives(s: State, c: Conn)
    requires Enabled(s, Accept(c)) && Tokens.Inv(s)
    ensures c !in s.clients && Apply(s, Accept(c)).clients == s.clients[c := Link([], 0, [], false, false, [])]
    ensures Apply(s, Accept(c)).jobs == s.jobs && Apply(s, Accept(c)).ops == s.ops + [ReadHeader(c)]
    ensures Launching.KnownConns(s)
  {
    hide Launching.KnownConns, AllBalanced, SaltsDiffer, NotesDiffer, AnsweredOnce, UnrepliedInFlight;
  }

  lemma {:induction false} AcceptKeepsFit(s: State, c: Conn)
    requires Tokens.Inv(s) && AllFit(s) && Enabled(s, Accept(c))
    ensures AllFit(Apply(s, Accept(c)))
  {
    hide *;
    var u := Apply(s, Accept(c));
    AcceptGives(s, c);
    NewConnFits(s, u, c);
    OneConnMoves(s, u, c);
  }

  /** Bytes that arrive, frames that are written: nothing that was read changes. */
  lemma {:induction false} QuietKeepsFit(s: State, u: State)
    requires AllFit(s) && u.ops == s.ops && u.jobs == s.jobs && u.clients.Keys == s.clients.Keys
    requires forall d :: d in s.clients ==>
      && u.clients[d].taken == s.clients[d].taken && s.clients[d].received <= u.clients[d].received
      && u.clients[d].handled == s.clients[d].handled && u.clients[d].ended == s.clients[d].ended
      && Replied(u.clients[d].written) == Replied(s.clients[d].written)
    ensures AllFit(u)
  {
    hide Replied, JobsOf, JobData, Triggers, Readable, ModeAfter, Flat;
    forall d | d in u.clients
      ensures ConnFits(u, d)
    {
      assert ConnFits(s, d);
      assert s.clients[d].taken <= |s.clients[d].received| ==>
        u.clients[d].received[..u.clients[d].taken] == s.clients[d].received[..s.clients[d].taken];
    }
  }

  lemma {:induction false} ReplyKeepsFit(s: State, u: State, c: Conn, j: JobId, written: seq<Out>)
    requires AllFit(s) && c in s.clients && JobsOf(s.jobs, c) == Replied(s.clients[c].written) + [j]
    requires u.jobs == s.jobs && u.ops == s.ops + [ReadHeader(c)]
    requires u.clients == s.clients[c := s.clients[c].(written := written)]
    requires Replied(written) == Replied(s.clients[c].written) + [j]
    ensures AllFit(u)
  {
    hide Replied, JobsOf, JobData, Triggers, Readable, ModeAfter, Flat;
    assert ConnFits(s, c);
    assert ConnFits(u, c);
    hide ConnFits, AllFit;
    OneConnMoves(s, u, c);
  }

  lemma {:induction false} NoteKeepsFit(s: State, i: nat)
    requires Tokens.Inv(s) && AllFit(s) && Enabled(s, NoteHandled(i))
    ensures AllFit(OnNote(s, i))
  {
    assert NoteKnown(s, s.inFlight[i]);
    hide *;
    NoteLeaves(s, i);
    if IsReply(s, s.inFlight[i]) {
      var j, c, out := ReplyGives(s, i);
      RepliedAppend(s.clients[c].written, out);
      ReplyKeepsFit(s, OnNote(s, i), c, j, s.clients[c].written + [out]);
    } else {
      QuietKeepsFit(s, OnNote(s, i));
    }
  }

  lemma {:induction false} StillFit(s: State, a: Step)
    requires AllFit(s) && Enabled(s, a) && IsQuiet(a)
    ensures AllFit(Apply(s, a))
  {
    hide *;
    QuietGives(s, a);
    QuietKeepsFit(s, Apply(s, a));
  }

  lemma {:induction false} FailureKeepsFit(s: State, i: nat)
    requires Tokens.Inv(s) && AllFit(s) && Enabled(s, ReadFails(i))
    ensures AllFit(Apply(s, ReadFails(i)))
  {
    var c := s.ops[i].c;
    var k := s.clients[c].(ended := true);
    assert LinkFits(k) by {
      hide Tokens.Inv, Flat, Readable, ModeAfter;
      assert ConnFits(s, c);
    }
    hide *;
    FailureGives(s, i);
    ReadReplaced(s, i, Apply(s, ReadFails(i)), c, k, []);
  }

  lemma {:induction false} StepKeepsFit(s: State, a: Step)
    requires Tokens.Inv(s) && AllFit(s) && Enabled(s, a)
    ensures AllFit(Apply(s, a))
  {
    assert a.Accept? || a.HeaderDone? || a.BodyDone? || a.NoteHandled? || a.ReadFails? || IsQuiet(a);
    hide *;
    match a
    case Accept(c) => AcceptKeepsFit(s, c);
    case HeaderDone(i, choice, noise) =>
      HeaderApplies(s, i, choice, noise);
      HeaderKeepsFit(s, i, choice, noise);
    case BodyDone(_, _, _, _) => BodyKeepsFit(s, a);
    case NoteHandled(i) =>
      NoteLeaves(s, i);
      NoteKeepsFit(s, i);
    case ReadFails(i) => FailureKeepsFit(s, i);
    case _ => StillFit(s, a);
  }
}
