/** What the server hears from workers: the packets that a worker's reader handled are what its bytes mean, so
    the front of what the worker said, and every reply written to a client is one that a worker gave.

    Handler-atomic. The first part holds in every run, the rest with honest workers.
 */
module ServerWorkers {
  import opened Wire
  import opened KeyHash
  import opened Framing
  import opened Server
  import Launching = ServerLaunching
  import Launcher

  // One worker's reader ----------------------------------------------------------------------------------------

  function TailOf(w: Want): seq<byte> {
    if w.WantBody? then EncodeHeader(w.header) else []
  }

  predicate Deregistered(ps: seq<Packet>) {
    exists i :: 0 <= i < |ps| && ps[i].header.typ == WORKER_DEREG
  }

  /** The reader stands at a packet boundary or between a header and its body, or has stopped; and the worker
      is valid exactly until it deregisters or the read of a header fails. */
  predicate LinkSound(k: WorkerLink) {
    && k.reader.mode.Worker? && !k.reader.want.Gated? && Sound(k.reader)
    && Readable(Worker, k.reader.handled) && Flat(k.reader.handled) <= k.received
    && (Reading(k.reader) ==>
          k.taken <= |k.received| && k.received[..k.taken] == Flat(k.reader.handled) + TailOf(k.reader.want))
    && (k.reader.valid <==> !k.broken && !Deregistered(k.reader.handled))
  }

  lemma {:induction false} StaysWorker(ps: seq<Packet>)
    ensures ModeAfter(Worker, ps) == Worker
  {
    if ps != [] {
      StaysWorker(ps[1..]);
    }
  }

  lemma {:induction false} TakeMore(s: seq<byte>, a: nat, n: nat)
    requires a + n <= |s|
    ensures s[..a + n] == s[..a] + s[a..a + n]
  {
  }

  lemma {:induction false} DeregisteredAppend(ps: seq<Packet>, p: Packet)
    ensures Deregistered(ps + [p]) <==> Deregistered(ps) || p.header.typ == WORKER_DEREG
  {
    if Deregistered(ps) {
      var i :| 0 <= i < |ps| && ps[i].header.typ == WORKER_DEREG;
      assert (ps + [p])[i].header.typ == WORKER_DEREG;
    }
    assert (ps + [p])[|ps|] == p;
  }

  /** A packet whose last byte has just been read. */
  lemma {:induction false} PacketHeard(k: WorkerLink, p: Packet, n: nat)
    requires LinkSound(k) && k.taken + n <= |k.received|
    requires k.received[..k.taken + n] == Flat(k.reader.handled) + Frame(p)
    requires KnownType(p.header.typ) && |p.data| == BodyLength(Worker, p.header)
    ensures var hs := k.reader.handled + [p];
      && k.received[..k.taken + n] == Flat(hs) + [] && Flat(hs) <= k.received && Readable(Worker, hs)
      && (Deregistered(hs) <==> Deregistered(k.reader.handled) || p.header.typ == WORKER_DEREG)
  {
    var hs := k.reader.handled;
    StaysWorker(hs);
    FlatSnoc(hs, p);
    ReadableAppend(Worker, hs, p);
    DeregisteredAppend(hs, p);
    assert Flat(hs + [p]) + [] == Flat(hs + [p]);
    assert k.received[..k.taken + n] <= k.received;
  }

  lemma {:induction false} HeaderBytes(k: WorkerLink)
    requires LinkSound(k) && CanHear(k) && k.reader.want.WantHeader?
    ensures var h := ParseHeader(Heard(k)); var n := k.taken + HEADER_SIZE;
      n <= |k.received| && k.received[..n] == Flat(k.reader.handled) + EncodeHeader(h)
  {
    hide Flat, Readable, Deregistered, ParseHeader, EncodeHeader;
    EncodeOfParse(Heard(k));
    TakeMore(k.received, k.taken, HEADER_SIZE);
  }

  lemma {:induction false} HeaderHeard(k: WorkerLink)
    requires LinkSound(k) && CanHear(k) && k.reader.want.WantHeader?
    ensures LinkSound(HearingLink(k))
  {
    hide Flat, Readable, Deregistered, ParseHeader, EncodeHeader;
    HeaderBytes(k);
    var h := ParseHeader(Heard(k));
    assert Frame(Packet(h, [])) == EncodeHeader(h);
    if KnownType(h.typ) && !CarriesBody(Worker, h.typ) {
      PacketHeard(k, Packet(h, []), HEADER_SIZE);
    }
  }

  lemma {:induction false} BodyHeard(k: WorkerLink)
    requires LinkSound(k) && CanHear(k) && k.reader.want.WantBody?
    ensures LinkSound(HearingLink(k))
  {
    var h := k.reader.want.header;
    var p := Packet(h, Heard(k));
    TakeMore(k.received, k.taken, h.datasize);
    Regroup(Flat(k.reader.handled), EncodeHeader(h), p.data);
    PacketHeard(k, p, h.datasize);
    hide Flat, Readable, Deregistered;
  }

  // Every run, whatever the workers send ------------------------------------------------------------------------

  ghost predicate AllSound(s: State) {
    forall w :: 0 <= w < |s.workers| ==> LinkSound(s.workers[w])
  }

  lemma {:induction false} NewWorkerSound(s: State, i: nat, noise: seq<Packet>)
    requires CanComplete(s, i)
    ensures LinkSound(NewWorker(s, i, noise))
  {
  }

  lemma {:induction false} MoreBytesSound(k: WorkerLink, bytes: seq<byte>)
    requires LinkSound(k)
    ensures LinkSound(k.(received := k.received + bytes))
  {
    hide Flat, Readable, Deregistered;
    assert k.taken <= |k.received| ==> (k.received + bytes)[..k.taken] == k.received[..k.taken];
  }

  lemma {:induction false} FailedSound(k: WorkerLink)
    requires LinkSound(k) && Reading(k.reader)
    ensures LinkSound(k.(reader := k.reader.Failed(), broken := k.broken || k.reader.want.WantHeader?))
  {
    hide Flat, Readable, Deregistered;
  }

  /** What a step does to one worker that was there before. */
  lemma {:induction false} WorkerGives(s: State, a: Step, w: nat)
    requires Enabled(s, a) && w < |s.workers|
    ensures w < |Apply(s, a).workers|
    ensures var k, q := s.workers[w], Apply(s, a).workers[w];
      || q == k
      || (a.Hears? && a.w == w && CanHear(k) && q == HearingLink(k))
      || (a.Reaches? && a.w == w && q == k.(received := k.received + a.bytes))
      || (a.HearFails? && a.w == w && Reading(k.reader) &&
          q == k.(reader := k.reader.Failed(), broken := k.broken || k.reader.want.WantHeader?))
      || ((a.Answers? || a.Acks? || a.Says?) && |q.said| > 0 && q == k.(said := k.said + [q.said[|q.said| - 1]]))
  {
    hide ParseHeader, Launcher.Drain, ReaderReply, NewWorker, Response, HearingLink, Posted;
  }

  lemma {:induction false} NewWorkerGives(s: State, a: Step, w: nat)
    requires Enabled(s, a) && |s.workers| <= w < |Apply(s, a).workers|
    ensures a.HeaderDone? && RegistersWorker(s, a.i) && w == |s.workers|
    ensures Apply(s, a).workers[w] == NewWorker(s, a.i, a.noise)
  {
    hide ParseHeader, Launcher.Drain, ReaderReply, NewWorker, Response, HearingLink, Posted;
  }

  lemma {:induction false} StepKeepsSound(s: State, a: Step)
    requires Enabled(s, a) && AllSound(s)
    ensures AllSound(Apply(s, a))
  {
    hide Apply, Enabled, LinkSound, HearingLink, NewWorker;
    forall w | 0 <= w < |Apply(s, a).workers|
      ensures LinkSound(Apply(s, a).workers[w])
    {
      if w < |s.workers| {
        WorkerGives(s, a, w);
        OneStaysSound(s, a, w);
      } else {
        NewWorkerGives(s, a, w);
        NewWorkerSound(s, a.i, a.noise);
      }
    }
  }

  lemma {:induction false} OneStaysSound(s: State, a: Step, w: nat)
    requires Enabled(s, a) && AllSound(s) && w < |s.workers|
    ensures w < |Apply(s, a).workers| && LinkSound(Apply(s, a).workers[w])
  {
    hide Apply, Enabled, HearingLink, Readable, Flat, Deregistered;
    WorkerGives(s, a, w);
    var k := s.workers[w];
    assert LinkSound(k);
    if a.Hears? && a.w == w && CanHear(k) {
      if k.reader.want.WantHeader? {
        HeaderHeard(k);
      } else {
        BodyHeard(k);
      }
    } else if a.Reaches? {
      MoreBytesSound(k, a.bytes);
    } else if a.HearFails? && Reading(k.reader) {
      FailedSound(k);
    }
  }

  // What workers mean ----------------------------------------------------------------------------------------------

  /** An answer or an ack echoes the header of the push it is about, which went to the worker that speaks. */
  ghost predicate SayTrue(s: State, w: nat, say: Say) {
    match say
    case Answered(p, n) =>
      PushKnown(s, n) && s.pushes[n].w == w && |p.data| < U32 &&
      p == Response(s.jobs[s.pushes[n].job].pack.header, p.data) && Answer(n, p) in s.given
    case Acked(p, n) => PushKnown(s, n) && s.pushes[n].w == w && p == AckOf(s.jobs[s.pushes[n].job].pack.header)
    case Noise(p) => IsNoise(p)
  }

  ghost predicate AllTrue(s: State) {
    forall w, n :: 0 <= w < |s.workers| && 0 <= n < |s.workers[w].said| ==> SayTrue(s, w, s.workers[w].said[n])
  }

  lemma {:induction false} StampedNoise(p: Packet)
    requires IsNoise(p)
    ensures IsNoise(Stamped(p))
  {
  }

  lemma {:induction false} SayStays(s: State, u: State, w: nat, say: Say)
    requires Launching.Grows(s, u) && SayTrue(s, w, say)
    ensures SayTrue(u, w, say)
  {
    if !say.Noise? {
      assert u.pushes[say.push] == s.pushes[say.push];
      assert u.jobs[s.pushes[say.push].job] == s.jobs[s.pushes[say.push].job];
    }
  }

  /** The one thing a worker may say in a step. */
  ghost function NewSay(s: State, a: Step): Say
    requires Enabled(s, a) && (a.Answers? || a.Acks? || a.Says?)
  {
    match a
    case Answers(n, data) => Answered(Response(s.jobs[s.pushes[n].job].pack.header, data), n)
    case Acks(n) => Acked(AckOf(s.jobs[s.pushes[n].job].pack.header), n)
    case Says(w, p) => Noise(Stamped(p))
  }

  function Speaker(s: State, a: Step): nat
    requires (a.Answers? || a.Acks? ==> a.push < |s.pushes|) && (a.Answers? || a.Acks? || a.Says?)
  {
    if a.Says? then a.w else s.pushes[a.push].w
  }

  lemma {:induction false} SaidGives(s: State, a: Step, w: nat)
    requires Enabled(s, a) && w < |s.workers|
    ensures w < |Apply(s, a).workers|
    ensures (a.Answers? || a.Acks? || a.Says?) && Speaker(s, a) == w ==>
      Apply(s, a).workers[w].said == s.workers[w].said + [NewSay(s, a)]
    ensures !((a.Answers? || a.Acks? || a.Says?) && Speaker(s, a) == w) ==>
      Apply(s, a).workers[w].said == s.workers[w].said
  {
    hide ParseHeader, Launcher.Drain, ReaderReply, NewWorker, Response, Posted;
  }

  lemma {:induction false} NewSayTrue(s: State, a: Step)
    requires Enabled(s, a) && (a.Answers? || a.Acks? || a.Says?)
    ensures SayTrue(Apply(s, a), Speaker(s, a), NewSay(s, a))
  {
    if a.Says? {
      StampedNoise(a.packet);
    } else if a.Answers? {
      assert Apply(s, a).given[|s.given|] == Answer(a.push, NewSay(s, a).packet);
    }
  }

  lemma {:induction false} StepKeepsTrue(s: State, a: Step)
    requires Enabled(s, a) && AllTrue(s)
    ensures AllTrue(Apply(s, a))
  {
    hide Apply, Enabled, SayTrue, NewSay, Launching.Grows, NewWorker;
    Launching.StepGrows(s, a);
    var u := Apply(s, a);
    forall w, n | 0 <= w < |u.workers| && 0 <= n < |u.workers[w].said|
      ensures SayTrue(u, w, u.workers[w].said[n])
    {
      if w < |s.workers| {
        SaidGives(s, a, w);
        if n < |s.workers[w].said| {
          SayStays(s, u, w, s.workers[w].said[n]);
        } else {
          NewSayTrue(s, a);
        }
      } else {
        NewWorkerGives(s, a, w);
        FirstSaysTrue(s, u, a, w, n);
      }
    }
  }

  lemma {:induction false} FirstSaysTrue(s: State, u: State, a: Step, w: nat, n: nat)
    requires Enabled(s, a) && a.HeaderDone? && n < |NewWorker(s, a.i, a.noise).said|
    ensures SayTrue(u, w, NewWorker(s, a.i, a.noise).said[n])
  {
    StampedNoise(a.noise[n]);
  }

  // Hearing what was said ------------------------------------------------------------------------------------------

  predicate SaysFit(said: seq<Say>) {
    forall n :: 0 <= n < |said| ==>
      KnownType(said[n].packet.header.typ) && |said[n].packet.data| == BodyLength(Worker, said[n].packet.header)
  }

  lemma {:induction false} EachFits(ps: seq<Packet>)
    requires forall n :: 0 <= n < |ps| ==> KnownType(ps[n].header.typ) && |ps[n].data| == BodyLength(Worker, ps[n].header)
    ensures Readable(Worker, ps)
  {
    if ps != [] {
      EachFits(ps[1..]);
    }
  }

  lemma {:induction false} TrueSaysFit(s: State, w: nat)
    requires AllTrue(s) && w < |s.workers|
    ensures SaysFit(s.workers[w].said)
  {
    forall n | 0 <= n < |s.workers[w].said|
      ensures var p := s.workers[w].said[n].packet; KnownType(p.header.typ) && |p.data| == BodyLength(Worker, p.header)
    {
      assert SayTrue(s, w, s.workers[w].said[n]);
    }
  }

  /** The packets handled are the front of what the bytes mean. */
  lemma {:induction false} HeardIsDecoded(k: WorkerLink)
    requires LinkSound(k)
    ensures k.reader.handled <= Decode(Worker, k.received)
  {
    var hs := k.reader.handled;
    var rest := k.received[|Flat(hs)|..];
    assert k.received == Flat(hs) + rest;
    DecodeFlat(Worker, hs, rest);
  }

  /** With an honest worker, what its bytes mean is the front of what it said. */
  lemma {:induction false} DecodedWasSaid(k: WorkerLink)
    requires SaysFit(k.said) && Honest(k)
    ensures Decode(Worker, k.received) <= Packs(k.said)
  {
    var said := Packs(k.said);
    EachFits(said);
    DecodeFlat(Worker, said, []);
    assert Flat(said) + [] == Flat(said);
    assert said + [] == said && Decode(ModeAfter(Worker, said), []) == [];
    DecodePrefix(Worker, Flat(said), |k.received|);
    assert k.received == Flat(said)[..|k.received|];
  }

  ghost predicate AllHonest(s: State) {
    forall w :: 0 <= w < |s.workers| ==> Honest(s.workers[w])
  }

  lemma {:induction false} SayingMoreIsHonest(k: WorkerLink, say: Say)
    requires Honest(k)
    ensures Honest(k.(said := k.said + [say]))
  {
    assert Packs(k.said + [say]) == Packs(k.said) + [say.packet];
    FlatSnoc(Packs(k.said), say.packet);
  }

  lemma {:induction false} StepKeepsHonest(s: State, a: Step)
    requires Enabled(s, a) && AllHonest(s) && KeepsHonest(s, a)
    ensures AllHonest(Apply(s, a))
  {
    hide Apply, Enabled, HearingLink, NewWorker, Flat;
    forall w | 0 <= w < |Apply(s, a).workers|
      ensures Honest(Apply(s, a).workers[w])
    {
      if w < |s.workers| {
        OneStaysHonest(s, a, w);
      } else {
        NewWorkerGives(s, a, w);
      }
    }
  }

  lemma {:induction false} OneStaysHonest(s: State, a: Step, w: nat)
    requires Enabled(s, a) && AllHonest(s) && KeepsHonest(s, a) && w < |s.workers|
    ensures w < |Apply(s, a).workers| && Honest(Apply(s, a).workers[w])
  {
    WorkerGives(s, a, w);
    var k, q := s.workers[w], Apply(s, a).workers[w];
    hide Apply, Enabled, Flat;
    assert Honest(k);
    if a.Answers? || a.Acks? || a.Says? {
      if q != k {
        SayingMoreIsHonest(k, q.said[|q.said| - 1]);
      }
    }
  }

  // Notes and replies ----------------------------------------------------------------------------------------------

  /** Only acks and responses are posted to the strand. */
  ghost predicate NotesTyped(s: State) {
    forall i :: 0 <= i < |s.inFlight| ==>
      NoteKnown(s, s.inFlight[i]) && PacketOf(s, s.inFlight[i]).header.typ in {ACK, WORKER_RESPONSE}
  }

  lemma {:induction false} StepKeepsTyped(s: State, a: Step)
    requires Enabled(s, a) && NotesTyped(s)
    ensures NotesTyped(Apply(s, a))
  {
    Launching.NotesGive(s, a);
    Launching.StepGrows(s, a);
    hide Apply, Enabled, Launching.Grows, HearingLink;
    var u := Apply(s, a);
    forall i | 0 <= i < |u.inFlight|
      ensures NoteKnown(u, u.inFlight[i]) && PacketOf(u, u.inFlight[i]).header.typ in {ACK, WORKER_RESPONSE}
    {
      if a.Hears? && i == |s.inFlight| {
      } else {
        var k := if a.NoteHandled? && i >= a.i then i + 1 else i;
        assert u.inFlight[i] == s.inFlight[k];
        Launching.NoteStays(s, u, s.inFlight[k]);
      }
    }
  }

  /** The worker meant what the server heard: the note is its ack or its answer to the push `say.push`. */
  ghost predicate Meant(s: State, note: Note) {
    NoteKnown(s, note) && note.n < |s.workers[note.w].said| &&
    var say := s.workers[note.w].said[note.n];
    && say.packet == PacketOf(s, note) && !say.Noise? && SayTrue(s, note.w, say)
    && (say.Answered? <==> say.packet.header.typ == WORKER_RESPONSE)
  }

  /** The job that a note is about, if the worker meant it. */
  function AskedBy(s: State, note: Note): JobId {
    if note.w < |s.workers| && note.n < |s.workers[note.w].said| && !s.workers[note.w].said[note.n].Noise? &&
       s.workers[note.w].said[note.n].push < |s.pushes|
    then s.pushes[s.workers[note.w].said[note.n].push].job
    else 0
  }

  /** Every ack or response that an honest worker's reader handled was meant. */
  lemma {:induction false} HeardIsMeant(s: State, note: Note)
    requires AllSound(s) && AllHonest(s) && AllTrue(s) && NoteKnown(s, note)
    requires PacketOf(s, note).header.typ in {ACK, WORKER_RESPONSE}
    ensures Meant(s, note)
  {
    var k := s.workers[note.w];
    HeardIsDecoded(k);
    TrueSaysFit(s, note.w);
    DecodedWasSaid(k);
    assert Packs(k.said)[note.n] == k.reader.handled[note.n];
    assert SayTrue(s, note.w, k.said[note.n]);
  }

  lemma {:induction false} MeantPush(s: State, note: Note)
    requires Meant(s, note)
    ensures PushKnown(s, s.workers[note.w].said[note.n].push)
  {
  }

  lemma {:induction false} MeantStays(s: State, u: State, note: Note)
    requires Launching.Grows(s, u) && Meant(s, note)
    ensures Meant(u, note) && AskedBy(u, note) == AskedBy(s, note)
  {
    hide SayTrue;
    Launching.NoteStays(s, u, note);
    var say := s.workers[note.w].said[note.n];
    assert Launching.WorkerGrows(s.workers[note.w], u.workers[note.w]);
    SayStays(s, u, note.w, say);
    MeantPush(s, note);
    assert u.pushes[say.push] == s.pushes[say.push];
  }

  /** A reply written to `c` carries a response that a worker meant, and is the callback of the job found
      under its key. */
  ghost predicate GenuineReply(s: State, c: Conn, out: Out)
    requires out.why.ForJob?
  {
    && Meant(s, out.why.note) && out.packet == PacketOf(s, out.why.note) && out.packet.header.typ == WORKER_RESPONSE
    && KeyOf(out.packet.header) in s.mapped && out.why.job == s.mapped[KeyOf(out.packet.header)]
    && out.why.job < |s.jobs| && s.jobs[out.why.job].origin == c
  }

  ghost predicate GenuineReplies(s: State) {
    forall c, i :: c in s.clients && 0 <= i < |s.clients[c].written| && s.clients[c].written[i].why.ForJob? ==>
      GenuineReply(s, c, s.clients[c].written[i])
  }

  lemma {:induction false} GenuineStays(s: State, u: State, c: Conn, out: Out)
    requires Launching.Grows(s, u) && out.why.ForJob? && GenuineReply(s, c, out)
    ensures GenuineReply(u, c, out)
  {
    MeantStays(s, u, out.why.note);
    Launching.NoteStays(s, u, out.why.note);
    assert u.jobs[out.why.job] == s.jobs[out.why.job];
    hide Meant;
  }

  lemma {:induction false} MeantIsMapped(s: State, note: Note)
    requires Launching.FirstJobs(s) && Meant(s, note)
    ensures AskedBy(s, note) < |s.jobs| && KeyOf(PacketOf(s, note).header) == KeyOfJob(s, AskedBy(s, note))
    ensures KeyOfJob(s, AskedBy(s, note)) in s.mapped && s.mapped[KeyOfJob(s, AskedBy(s, note))] < |s.jobs|
  {
    var say := s.workers[note.w].said[note.n];
    assert SayTrue(s, note.w, say) && PushKnown(s, say.push);
    var j := s.pushes[say.push].job;
    assert KeyOfJob(s, j) in s.mapped;
  }

  lemma {:induction false} HeaderWritesNoReply(s: State, a: Step, c: Conn, i: nat)
    requires Enabled(s, a) && a.HeaderDone?
    requires c in Apply(s, a).clients && i < |Apply(s, a).clients[c].written|
    requires Apply(s, a).clients[c].written[i].why.ForJob?
    ensures c in s.clients && i < |s.clients[c].written|
    ensures s.clients[c].written[i] == Apply(s, a).clients[c].written[i]
  {
    hide ParseHeader, Launcher.Drain, ReaderReply, NewWorker, Delivered;
  }

  /** No step but the handler of a note writes a reply. */
  lemma {:induction false} WritesNoReply(s: State, a: Step, c: Conn, i: nat)
    requires Enabled(s, a) && !a.NoteHandled?
    requires c in Apply(s, a).clients && i < |Apply(s, a).clients[c].written|
    requires Apply(s, a).clients[c].written[i].why.ForJob?
    ensures c in s.clients && i < |s.clients[c].written|
    ensures s.clients[c].written[i] == Apply(s, a).clients[c].written[i]
  {
    if a.HeaderDone? {
      HeaderWritesNoReply(s, a, c, i);
      hide Apply;
    } else {
      hide OnHeader, ParseHeader, Launcher.Drain, Response, Posted, HearingLink, Delivered, NewJob;
    }
  }

  /** The handler of a response that was meant writes at most one reply, to the connection of the job found. */
  lemma {:induction false} NoteGives(s: State, i: nat)
    requires Enabled(s, NoteHandled(i)) && Launching.KnownConns(s) && Launching.FirstJobs(s) && Meant(s, s.inFlight[i])
    ensures var u := OnNote(s, i); var note := s.inFlight[i]; var p := PacketOf(s, note);
      && !u.crashed && KeyOf(p.header) in s.mapped && s.mapped[KeyOf(p.header)] < |s.jobs|
      && var j := s.mapped[KeyOf(p.header)]; var c := s.jobs[j].origin;
         && c in s.clients
         && if p.header.typ != WORKER_RESPONSE || s.clients[c].moved then u.clients == s.clients && u.ops == s.ops
            else u.ops == s.ops + [ReadHeader(c)] &&
                 u.clients == s.clients[c := s.clients[c].(written := s.clients[c].written + [Out(p, ForJob(j, note))])]
  {
    MeantIsMapped(s, s.inFlight[i]);
    hide Meant, Launching.FirstJobs;
  }

  lemma {:induction false} NoteKeepsReplies(s: State, i: nat)
    requires Enabled(s, NoteHandled(i)) && Launching.KnownConns(s) && Launching.FirstJobs(s) && Meant(s, s.inFlight[i])
    requires GenuineReplies(s) && Launching.Grows(s, OnNote(s, i))
    ensures GenuineReplies(OnNote(s, i))
  {
    NoteGives(s, i);
    MeantIsMapped(s, s.inFlight[i]);
    MeantStays(s, OnNote(s, i), s.inFlight[i]);
    Launching.NoteStays(s, OnNote(s, i), s.inFlight[i]);
    var u, note := OnNote(s, i), s.inFlight[i];
    assert u.mapped == s.mapped && u.jobs == s.jobs;
    hide OnNote, Meant, Enabled, Launching.KnownConns, Launching.FirstJobs, Launching.Grows, AskedBy, KeyOf;
    forall d, n | d in u.clients && 0 <= n < |u.clients[d].written| && u.clients[d].written[n].why.ForJob?
      ensures GenuineReply(u, d, u.clients[d].written[n])
    {
      if d in s.clients && n < |s.clients[d].written| {
        assert u.clients[d].written[n] == s.clients[d].written[n];
        assert GenuineReply(s, d, s.clients[d].written[n]);
        GenuineStays(s, u, d, s.clients[d].written[n]);
      }
    }
  }

  lemma {:induction false} StepKeepsReplies(s: State, a: Step)
    requires Enabled(s, a) && !a.NoteHandled? && GenuineReplies(s)
    ensures GenuineReplies(Apply(s, a)) && !Apply(s, a).crashed
  {
    Launching.StepGrows(s, a);
    StepDoesNotCrash(s, a);
    hide Apply, Enabled, Launching.Grows, GenuineReply;
    var u := Apply(s, a);
    forall c, i | c in u.clients && 0 <= i < |u.clients[c].written| && u.clients[c].written[i].why.ForJob?
      ensures GenuineReply(u, c, u.clients[c].written[i])
    {
      WritesNoReply(s, a, c, i);
      GenuineStays(s, u, c, s.clients[c].written[i]);
    }
  }

  lemma {:induction false} StepDoesNotCrash(s: State, a: Step)
    requires Enabled(s, a) && !a.NoteHandled?
    ensures !Apply(s, a).crashed
  {
    hide ParseHeader, Launcher.Drain, ReaderReply, NewWorker, Response, Posted, HearingLink;
  }

  // Every run with honest workers ------------------------------------------------------------------------------------

  ghost predicate Inv(s: State) {
    && Launching.Inv(s) && !s.crashed
    && AllSound(s) && AllTrue(s) && AllHonest(s) && NotesTyped(s) && GenuineReplies(s)
  }

  lemma {:induction false} NoteIsMeant(s: State, i: nat)
    requires Inv(s) && i < |s.inFlight|
    ensures Meant(s, s.inFlight[i])
  {
    hide Launching.Inv, LinkSound, AllTrue, AllHonest, GenuineReplies;
    HeardIsMeant(s, s.inFlight[i]);
  }

  lemma {:induction false} NoteStep(s: State, i: nat)
    requires Inv(s) && Enabled(s, NoteHandled(i))
    ensures GenuineReplies(OnNote(s, i)) && !OnNote(s, i).crashed
  {
    assert Launching.KnownConns(s) && Launching.FirstJobs(s) && GenuineReplies(s);
    assert i < |s.inFlight|;
    hide *;
    NoteIsMeant(s, i);
    NoteGives(s, i);
    NoteGrows(s, i);
    NoteKeepsReplies(s, i);
  }

  lemma {:induction false} NoteGrows(s: State, i: nat)
    requires Enabled(s, NoteHandled(i))
    ensures Launching.Grows(s, OnNote(s, i)) && Apply(s, NoteHandled(i)) == OnNote(s, i)
  {
    Launching.StepGrows(s, NoteHandled(i));
    hide OnNote;
  }

  lemma {:induction false} StepKeepsInv(s: State, a: Step)
    requires Inv(s) && Enabled(s, a) && KeepsHonest(s, a)
    ensures Inv(Apply(s, a))
  {
    if a.NoteHandled? {
      NoteGrows(s, a.i);
      NoteStep(s, a.i);
    } else {
      StepKeepsReplies(s, a);
    }
    hide Launching.Inv, AllSound, AllTrue, AllHonest, NotesTyped, GenuineReplies, Apply, Enabled, OnNote, KeepsHonest;
    Launching.StepKeepsInv(s, a);
    StepKeepsSound(s, a);
    StepKeepsTrue(s, a);
    StepKeepsHonest(s, a);
    StepKeepsTyped(s, a);
  }

  lemma {:induction false} InitInv()
    ensures Inv(INIT)
  {
    Launching.InitInv();
  }

  lemma {:induction false} RunKeepsInv(asm: Assumptions, s: State, steps: seq<Step>)
    requires Inv(s) && asm.honestWorkers && IsRun(asm, s, steps)
    ensures Inv(After(asm, s, steps))
    decreases |steps|
  {
    hide Apply, Inv, Enabled, KeepsHonest;
    if steps != [] {
      StepKeepsInv(s, steps[0]);
      RunKeepsInv(asm, Apply(s, steps[0]), steps[1..]);
    }
  }

  lemma {:induction false} ReachableInv(asm: Assumptions, s: State)
    requires Reachable(asm, s) && asm.honestWorkers
    ensures Inv(s)
  {
    hide Inv, IsRun, After;
    var steps :| IsRun(asm, INIT, steps) && s == After(asm, INIT, steps);
    InitInv();
    RunKeepsInv(asm, INIT, steps);
  }

  lemma {:induction false} RunKeepsSound(asm: Assumptions, s: State, steps: seq<Step>)
    requires AllSound(s) && IsRun(asm, s, steps)
    ensures AllSound(After(asm, s, steps))
    decreases |steps|
  {
    hide Apply, AllSound, Enabled, KeepsHonest;
    if steps != [] {
      StepKeepsSound(s, steps[0]);
      RunKeepsSound(asm, Apply(s, steps[0]), steps[1..]);
    }
  }

  // Theorems -----------------------------------------------------------------------------------------------------------

  /** In every run, whatever bytes a worker sends: the packets its reader handled are the front of what the bytes
      mean, and it counts as valid exactly until it deregisters or the read of a header fails. A failed
      read of a body, or a type that stops the reader, leaves it valid. */
  lemma {:induction false} WorkerReaderHandles(asm: Assumptions, s: State, w: nat)
    requires Reachable(asm, s) && w < |s.workers|
    ensures s.workers[w].reader.handled <= Decode(Worker, s.workers[w].received)
    ensures s.workers[w].reader.valid <==> !s.workers[w].broken && !Deregistered(s.workers[w].reader.handled)
  {
    assert AllSound(INIT);
    hide AllSound, IsRun, After;
    var steps :| IsRun(asm, INIT, steps) && s == After(asm, INIT, steps);
    RunKeepsSound(asm, INIT, steps);
    WorkerSound(s, w);
    hide LinkSound;
    HeardIsDecoded(s.workers[w]);
  }

  lemma {:induction false} WorkerSound(s: State, w: nat)
    requires AllSound(s) && w < |s.workers|
    ensures LinkSound(s.workers[w])
    ensures s.workers[w].reader.valid <==> !s.workers[w].broken && !Deregistered(s.workers[w].reader.handled)
  {
  }

  /** With honest workers, what the server handled of a worker is the front of what the worker said. */
  lemma {:induction false} ServerHearsWhatWasSaid(asm: Assumptions, s: State, w: nat)
    requires Reachable(asm, s) && asm.honestWorkers && w < |s.workers|
    ensures s.workers[w].reader.handled <= Decode(Worker, s.workers[w].received) <= Packs(s.workers[w].said)
  {
    ReachableInv(asm, s);
    hide Reachable, Launching.Inv, LinkSound, Readable, Flat, Decode;
    assert LinkSound(s.workers[w]) && Honest(s.workers[w]);
    HeardIsDecoded(s.workers[w]);
    TrueSaysFit(s, w);
    DecodedWasSaid(s.workers[w]);
  }

  /** `first` is the earliest job that drew the salt and the key that `asked` drew. */
  ghost predicate IsFirstLike(s: State, first: JobId, asked: JobId) {
    && first <= asked < |s.jobs| && KeyOfJob(s, first) == KeyOfJob(s, asked)
    && forall j :: 0 <= j < first ==> KeyOfJob(s, j) != KeyOfJob(s, asked)
  }

  lemma {:induction false} MappedIsFirst(s: State, j: JobId)
    requires Launching.FirstJobs(s) && j < |s.jobs|
    ensures KeyOfJob(s, j) in s.mapped && IsFirstLike(s, s.mapped[KeyOfJob(s, j)], j)
  {
    var key := KeyOfJob(s, j);
    forall i | 0 <= i < s.mapped[key]
      ensures KeyOfJob(s, i) != key
    {
      assert KeyOfJob(s, i) in s.mapped;
    }
  }

  /** With honest workers the handler of an ack or a response always finds a job: the earliest one with the salt
      of the job that the worker was pushed. */
  lemma {:induction false} LookupFindsFirst(asm: Assumptions, s: State, i: nat)
    requires Reachable(asm, s) && asm.honestWorkers && i < |s.inFlight|
    ensures !s.crashed && Meant(s, s.inFlight[i]) && SayTrue(s, s.inFlight[i].w, s.workers[s.inFlight[i].w].said[s.inFlight[i].n])
    ensures var key := KeyOf(PacketOf(s, s.inFlight[i]).header);
            key in s.mapped && IsFirstLike(s, s.mapped[key], AskedBy(s, s.inFlight[i]))
  {
    ReachableInv(asm, s);
    hide Reachable;
    NoteIsMeant(s, i);
    hide AllSound, AllTrue, AllHonest, NotesTyped, GenuineReplies;
    MeantIsMapped(s, s.inFlight[i]);
    MappedIsFirst(s, AskedBy(s, s.inFlight[i]));
  }

  lemma {:induction false} FirstIsUnique(s: State, i: JobId, j: JobId, asked: JobId)
    requires IsFirstLike(s, i, asked) && IsFirstLike(s, j, asked)
    ensures i == j
  {
    assert KeyOfJob(s, i) == KeyOfJob(s, j) == KeyOfJob(s, asked);
  }

  /** With honest workers, a reply reaches the connection that submitted the job that the worker was pushed if and
      only if the earliest job with the same salt was submitted there too. */
  lemma {:induction false} RoutedRightIff(asm: Assumptions, s: State, c: Conn, n: nat, first: JobId)
    requires Reachable(asm, s) && asm.honestWorkers && c in s.clients && n < |s.clients[c].written|
    requires s.clients[c].written[n].why.ForJob?
    ensures Meant(s, s.clients[c].written[n].why.note)
    ensures var note := s.clients[c].written[n].why.note;
      note.w < |s.workers| && note.n < |s.workers[note.w].said| && PacketOf(s, note) == s.clients[c].written[n].packet
    ensures var note := s.clients[c].written[n].why.note; var say := s.workers[note.w].said[note.n];
      say.Answered? && say.push < |s.pushes|
    ensures var asked := AskedBy(s, s.clients[c].written[n].why.note);
      asked < |s.jobs| &&
      (IsFirstLike(s, first, asked) ==> (c == s.jobs[asked].origin <==> s.jobs[first].origin == s.jobs[asked].origin))
  {
    ReachableInv(asm, s);
    hide Reachable;
    var out := s.clients[c].written[n];
    assert GenuineReply(s, c, out);
    hide AllSound, AllTrue, AllHonest, NotesTyped, GenuineReplies;
    assert SayTrue(s, out.why.note.w, s.workers[out.why.note.w].said[out.why.note.n]);
    MeantIsMapped(s, out.why.note);
    var asked := AskedBy(s, out.why.note);
    MappedIsFirst(s, asked);
    if IsFirstLike(s, first, asked) {
      FirstIsUnique(s, first, out.why.job, asked);
    }
  }
}
