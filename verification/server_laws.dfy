/** What each step of the server run does, read off the raw bytes: which header byte starts which read, what is
    written back, where jobs go, and when a worker is woken.
 */
module ServerLaws {
  import opened Wire
  import opened KeyHash
  import opened Framing
  import opened Server
  import Launching = ServerLaunching
  import Launcher

  // The switch on a client's header byte --------------------------------------------------------------------------

  /** What a completed header read leaves of its connection `k`, with `h` the header read: only its reading, and what
      is written on it, may change. */
  predicate ReadOn(k: Link, q: Link, h: Header, frames: seq<Out>) {
    q == k.(taken := k.taken + 45, handled := k.handled + [Packet(h, [])], written := k.written + frames)
  }

  /** The first of the 45 bytes decides: 1 and 16 start the read of a body; 8 hands the connection over, to a worker
      that has not read anything yet and goes on with the very next byte; 0, 2, 4, 9, 10 and 11 start the read of
      the next header, behind an ack (4) for 4, an err (0) for 0, 9, 10 and 11, and nothing for 2; any other byte
      ends the connection. */
  lemma {:induction false} ClientHeaderTable(s: State, i: nat, choice: nat, noise: seq<Packet>)
    requires Enabled(s, HeaderDone(i, choice, noise))
    ensures var t := Delivered(s, i)[0]; var h := ParseHeader(Delivered(s, i)); var c := s.ops[i].c; var k := s.clients[c];
      var u := Apply(s, HeaderDone(i, choice, noise)); var rest := s.ops[..i] + s.ops[i + 1..];
      && h.typ == t && u.clients == s.clients[c := u.clients[c]] && u.jobs == s.jobs && u.mapped == s.mapped
      && (t == 1 || t == 16 ==> u.ops == rest + [ReadBody(c, h)] && u.clients[c] == k.(taken := k.taken + 45))
      && (t == 8 ==>
            && u.ops == rest && u.clients[c].ended && u.clients[c].moved
            && u.clients[c].handled == k.handled + [Packet(h, [])] && u.clients[c].written == k.written
            && |u.workers| == |s.workers| + 1 && u.workers[..|s.workers|] == s.workers
            && var w := u.workers[|s.workers|];
               && w.c == c && w.taken == 0 && w.reader == Reader(Worker, WantHeader, true, []) && !w.broken
               && k.received == k.received[..u.clients[c].taken] + w.received)
      && (t == 2 ==> u.ops == rest + [ReadHeader(c)] && ReadOn(k, u.clients[c], h, []))
      && (t == 4 ==> u.ops == rest + [ReadHeader(c)] &&
                     ReadOn(k, u.clients[c], h, [Out(Packet(h.(typ := 4), []), ByReader)]))
      && (t == 0 || 9 <= t <= 11 ==> u.ops == rest + [ReadHeader(c)] &&
                                     ReadOn(k, u.clients[c], h, [Out(Packet(h.(typ := 0), []), ByReader)]))
      && (t !in {0, 1, 2, 4, 8, 9, 10, 11, 16} ==>
            u.ops == rest && u.clients[c] == k.(taken := k.taken + 45, ended := true))
      && (t != 8 ==> u.workers == s.workers)
  {
    FirstByte(Delivered(s, i));
    var h := ParseHeader(Delivered(s, i));
    ReaderReplyTable(Client, h);
    hide ParseHeader, Launcher.Drain, ReaderReply, Delivered;
    assert ByReaders([]) == [];
    if h.typ == 8 {
      RegistrationSplits(s, i, noise);
    }
  }

  lemma {:induction false} FirstByte(bytes: seq<byte>)
    requires |bytes| == 45
    ensures ParseHeader(bytes).typ == bytes[0]
  {
  }

  lemma {:induction false} RegistrationSplits(s: State, i: nat, noise: seq<Packet>)
    requires CanComplete(s, i) && s.ops[i].ReadHeader?
    ensures var k := s.clients[s.ops[i].c];
      k.received == k.received[..k.taken + 45] + NewWorker(s, i, noise).received
  {
  }

  /** Behind the body of a put (1) the next header is read; behind that of a trigger (16) nothing is, but a job is made
      of it: for this connection, with that body, of type 10, under the zero key and the numbers drawn. */
  lemma {:induction false} ClientBodyTable(s: State, i: nat, choice: nat, sequence: Quad, salt: Quad)
    requires Enabled(s, BodyDone(i, choice, sequence, salt))
    ensures var c := s.ops[i].c; var h := s.ops[i].header; var k := s.clients[c]; var b := Delivered(s, i);
      var u := Apply(s, BodyDone(i, choice, sequence, salt)); var rest := s.ops[..i] + s.ops[i + 1..];
      && u.clients == s.clients[c := k.(taken := k.taken + h.datasize, handled := k.handled + [Packet(h, b)])]
      && u.workers == s.workers
      && (h.typ != 16 ==> u.ops == rest + [ReadHeader(c)] && u.jobs == s.jobs)
      && (h.typ == 16 ==> u.ops == rest && |u.jobs| == |s.jobs| + 1 && u.jobs[..|s.jobs|] == s.jobs &&
                          var j := u.jobs[|s.jobs|];
                          && j.origin == c && j.pack.data == b && j.pack.header.typ == 10
                          && (forall n :: 0 <= n < 32 ==> j.pack.header.key[n] == 0)
                          && j.pack.header.sequence == sequence && j.pack.header.salt == salt)
  {
    hide Launcher.Drain, Delivered;
  }

  /** A worker's bytes: a header of type 4 posts a note, a whole packet of type 11 posts a note, nothing else does; and
      the note names the packet that has just been handled. */
  lemma {:induction false} WorkerNotes(s: State, w: nat)
    requires Enabled(s, Hears(w)) && s.workers[w].reader.mode.Worker?
    requires s.workers[w].reader.want.WantBody? ==> s.workers[w].reader.want.header.typ == 11
    ensures var r := s.workers[w].reader; var b := Heard(s.workers[w]); var u := Apply(s, Hears(w));
      var note := [Note(w, |r.handled|)];
      && u.clients == s.clients && u.ops == s.ops && u.workers[w].reader == r.Complete(b)
      && u.workers[w].taken == s.workers[w].taken + |b| && |u.workers| == |s.workers|
      && (r.want.WantHeader? ==> u.inFlight == s.inFlight + if b[0] == 4 then note else [])
      && (r.want.WantBody? ==> u.inFlight == s.inFlight + note &&
                               PacketOf(u, note[0]) == Packet(r.want.header, b))
  {
    if s.workers[w].reader.want.WantHeader? {
      FirstByte(Heard(s.workers[w]));
      WorkerSwitch(s.workers[w].reader, Heard(s.workers[w]));
      hide ParseHeader;
    }
  }

  predicate LinkGrows(k: Link, q: Link) {
    k.received <= q.received && k.written <= q.written && k.handled <= q.handled && k.taken <= q.taken
  }

  lemma {:induction false} HeaderAppends(s: State, i: nat, choice: nat, noise: seq<Packet>, c: Conn)
    requires Enabled(s, HeaderDone(i, choice, noise)) && c in s.clients
    ensures var u := OnHeader(s, i, choice, noise); c in u.clients && LinkGrows(s.clients[c], u.clients[c])
  {
    hide ParseHeader, ReaderReply, NewWorker, Launcher.Drain, Delivered;
  }

  lemma {:induction false} BodyAppends(s: State, i: nat, choice: nat, sequence: Quad, salt: Quad, c: Conn)
    requires Enabled(s, BodyDone(i, choice, sequence, salt)) && c in s.clients
    ensures var u := OnBody(s, i, choice, sequence, salt); c in u.clients && LinkGrows(s.clients[c], u.clients[c])
  {
    hide Launcher.Drain, Delivered, NewJob;
  }

  /** Bytes and frames are appended and never changed; those that arrive, or that the broker writes, are appended as
      they are. */
  lemma {:induction false} StreamsAppend(s: State, a: Step, c: Conn)
    requires Enabled(s, a) && c in s.clients
    ensures var k := s.clients[c]; var u := Apply(s, a);
      && c in u.clients && LinkGrows(k, u.clients[c])
      && (a.Arrive? && a.c == c ==> u.clients[c] == k.(received := k.received + a.bytes))
      && (a.BrokerWrites? && a.c == c ==> u.clients[c] == k.(written := k.written + [Out(a.packet, ByBroker)]))
      && (a.ReadFails? && s.ops[a.i].c == c ==> u.clients[c] == k.(ended := true))
  {
    if a.HeaderDone? {
      HeaderAppends(s, a.i, a.choice, a.noise, c);
    } else if a.BodyDone? {
      BodyAppends(s, a.i, a.choice, a.sequence, a.salt, c);
    }
    hide OnHeader, OnBody, Response, Posted, HearingLink, Delivered, ParseHeader;
  }

  lemma {:induction false} WorkerStreamsAppend(s: State, a: Step, w: nat)
    requires Enabled(s, a) && w < |s.workers|
    ensures w < |Apply(s, a).workers| && Launching.WorkerGrows(s.workers[w], Apply(s, a).workers[w])
    ensures a.Reaches? && a.w == w ==>
      Apply(s, a).workers[w] == s.workers[w].(received := s.workers[w].received + a.bytes)
  {
    Launching.StepGrows(s, a);
    hide ParseHeader, ReaderReply, Response, Posted, HearingLink, NewWorker, Launcher.Drain, OnHeader, OnBody, OnNote;
  }

  // Where jobs go ---------------------------------------------------------------------------------------------------

  /** The steps that call start_jobs: the body of a trigger (16) was read, or a registration (8). */
  predicate Launches(s: State, a: Step) {
    (a.BodyDone? && a.i < |s.ops| && s.ops[a.i].ReadBody? && s.ops[a.i].header.typ == 16) ||
    (a.HeaderDone? && CanComplete(s, a.i) && s.ops[a.i].ReadHeader? && Delivered(s, a.i)[0] == 8)
  }

  lemma {:induction false} LaunchesIs(s: State, a: Step)
    requires Enabled(s, a)
    ensures Launches(s, a) <==> Launching.IsLaunching(s, a)
  {
    if a.HeaderDone? {
      FirstByte(Delivered(s, a.i));
    }
    hide ParseHeader, Delivered;
  }

  /** The jobs that wait when start_jobs is called. */
  function Waiting(s: State, a: Step): seq<JobId> {
    s.queue + if a.BodyDone? then [|s.jobs|] else []
  }

  /** All waiting jobs, in order, went to one and the same valid worker; or no worker is valid, none went, and those
      waiting were turned by one. */
  ghost predicate Dispatched(u: State, waiting: seq<JobId>, before: seq<Push>) {
    if SomeValid(u) then
      && u.queue == [] && |u.pushes| == |before| + |waiting| && u.pushes[..|before|] == before
      && exists w :: IsValid(u, w) &&
           forall n :: 0 <= n < |waiting| ==> u.pushes[|before| + n] == Push(w, waiting[n])
    else
      && u.pushes == before && |u.queue| == |waiting|
      && (waiting != [] ==> u.queue == waiting[1..] + [waiting[0]])
  }

  lemma {:induction false} StartJobsDispatches(s: State, choice: nat)
    requires GoodChoice(s, choice)
    ensures Dispatched(StartJobs(s, choice), s.queue, s.pushes)
    ensures StartJobs(s, choice).wakeups == s.wakeups + if StartJobs(s, choice).queue != [] then 1 else 0
    ensures StartJobs(s, choice).emptied == s.emptied
  {
    var u := StartJobs(s, choice);
    assert u.workers == s.workers;
    if SomeValid(s) {
      assert IsValid(s, choice) && IsValid(u, choice);
      assert u.pushes == s.pushes + PushAll(choice, s.queue);
    } else {
      assert !IsValid(s, choice);
      assert u.pushes == s.pushes + PushAll(choice, []);
    }
  }

  /** Every step: a launching one dispatches what waits; no other step touches the queue, the pushes or the wakeups.
      And a launching step wakes one worker if and only if it leaves jobs waiting. */
  lemma {:induction false} LaunchLaw(s: State, a: Step)
    requires Enabled(s, a)
    ensures var u := Apply(s, a);
      && (Launches(s, a) ==> Dispatched(u, Waiting(s, a), s.pushes))
      && (!Launches(s, a) ==> u.queue == s.queue && u.pushes == s.pushes)
      && u.wakeups == s.wakeups + (if Launches(s, a) && u.queue != [] then 1 else 0)
      && u.emptied == if a.BodyDone? && Launches(s, a) && s.queue == [] then s.wakeups else s.emptied
  {
    LaunchesIs(s, a);
    hide Launches;
    if !Launching.IsLaunching(s, a) {
      Launching.OthersWakeNobody(s, a);
      hide Apply, Enabled;
      Launching.OtherStepsKeepLauncher(s, a);
    } else if a.HeaderDone? {
      Launching.RegistrationIsDrain(s, a.i, a.choice, a.noise);
      var v := Launching.Registered(s, a.i, a.noise);
      assert v.queue == s.queue && v.pushes == s.pushes && v.wakeups == s.wakeups && v.emptied == s.emptied;
      assert Waiting(s, a) == s.queue;
      hide *;
      StartJobsDispatches(v, a.choice);
    } else {
      Launching.TriggerIsSubmit(s, a.i, a.choice, a.sequence, a.salt);
      var v := Enqueue(Launching.BodyRead(s, a.i), NewJob(s.ops[a.i].c, Delivered(s, a.i), a.sequence, a.salt));
      assert v.queue == Waiting(s, a) && v.pushes == s.pushes && v.wakeups == s.wakeups;
      assert v.emptied == if s.queue == [] then s.wakeups else s.emptied;
      assert v.workers == s.workers && Apply(s, a) == StartJobs(v, a.choice) && GoodChoice(v, a.choice);
      hide *;
      StartJobsDispatches(v, a.choice);
    }
  }

  lemma {:induction false} StepWakes(s: State, a: Step)
    requires Enabled(s, a)
    ensures s.wakeups <= Apply(s, a).wakeups
    ensures s.queue == [] && Apply(s, a).queue != [] ==> s.wakeups < Apply(s, a).wakeups
  {
    LaunchLaw(s, a);
    hide Apply, Enabled, Launches, Dispatched;
  }

  /** Over any run: jobs that wait at its end have had a worker woken for them since any moment at which none waited. */
  lemma {:induction false} WaitingJobsWoke(asm: Assumptions, s: State, steps: seq<Step>)
    requires IsRun(asm, s, steps)
    ensures s.wakeups <= After(asm, s, steps).wakeups
    ensures s.queue == [] && After(asm, s, steps).queue != [] ==> s.wakeups < After(asm, s, steps).wakeups
    decreases |steps|
  {
    hide Apply, Enabled, KeepsHonest;
    if steps != [] {
      StepWakes(s, steps[0]);
      WaitingJobsWoke(asm, Apply(s, steps[0]), steps[1..]);
    }
  }

  // Notes, and what workers say --------------------------------------------------------------------------------------

  /** The strand handles one note and takes it off. For an ack nothing else changes. For a response the packet is
      written, as it is, to the connection of the job found under its key, and that connection reads on. */
  lemma {:induction false} NoteTable(s: State, i: nat)
    requires Enabled(s, NoteHandled(i)) && Launching.KnownConns(s)
    ensures var note := s.inFlight[i]; var p := PacketOf(s, note); var key := TopicKey(p.header.key, p.header.salt);
      var u := Apply(s, NoteHandled(i));
      && u.inFlight == s.inFlight[..i] + s.inFlight[i + 1..] && u.workers == s.workers && u.jobs == s.jobs
      && (key !in s.mapped ==> u.crashed)
      && (key in s.mapped && s.mapped[key] < |s.jobs| ==>
            && !u.crashed
            && var j := s.mapped[key]; var c := s.jobs[j].origin;
               && c in s.clients
               && (p.header.typ != 11 || s.clients[c].moved ==> u.clients == s.clients && u.ops == s.ops)
               && (p.header.typ == 11 && !s.clients[c].moved ==>
                     && u.ops == s.ops + [ReadHeader(c)]
                     && u.clients == s.clients[c := s.clients[c].(written := s.clients[c].written + [Out(p, ForJob(j, note))])]))
  {
  }

  /** What a worker adds to its stream: a response (11) with the key, sequence and salt pushed to it and its own body
      and size; an ack (4) with the same and no body; or what it likes that is neither and has no body. */
  lemma {:induction false} WorkerSays(s: State, a: Step)
    requires Enabled(s, a) && (a.Answers? || a.Acks?)
    ensures var push := s.pushes[a.push]; var h := s.jobs[push.job].pack.header; var u := Apply(s, a);
      && |u.workers| == |s.workers| && push.w < |s.workers|
      && |u.workers[push.w].said| == |s.workers[push.w].said| + 1
      && s.workers[push.w].said <= u.workers[push.w].said
      && var say := u.workers[push.w].said[|s.workers[push.w].said|]; var g := say.packet.header;
         && say.push == a.push && g.key == h.key && g.sequence == h.sequence && g.salt == h.salt
         && g.datasize == |say.packet.data| && g.typ == (if a.Answers? then 11 else 4)
         && (if a.Answers? then say.Answered? && say.packet.data == a.data else say.Acked? && say.packet.data == [])
         && u.given == s.given + if a.Answers? then [Answer(a.push, say.packet)] else []
  {
  }

  // No reader gets stuck ---------------------------------------------------------------------------------------------

  lemma {:induction false} SomeChoice(workers: seq<WorkerLink>) returns (choice: nat)
    ensures ChoiceAmong(workers, choice)
  {
    choice := 0;
    if AnyValid(workers) {
      choice :| choice < |workers| && workers[choice].reader.valid;
    }
  }

  /** Whenever the bytes that an outstanding read asks for have arrived, the read can complete: 45 of a header, as many
      of a body as the header announced. */
  lemma {:induction false} ReadsComplete(s: State, i: nat, sequence: Quad, salt: Quad) returns (choice: nat)
    requires !s.crashed && i < |s.ops| && s.ops[i].c in s.clients
    requires var k := s.clients[s.ops[i].c];
      k.taken + (if s.ops[i].ReadHeader? then 45 else s.ops[i].header.datasize) <= |k.received|
    ensures s.ops[i].ReadHeader? ==> Enabled(s, HeaderDone(i, choice, []))
    ensures s.ops[i].ReadBody? ==> Enabled(s, BodyDone(i, choice, sequence, salt))
  {
    choice := SomeChoice(if s.ops[i].ReadHeader? then s.workers + [NewWorker(s, i, [])] else s.workers);
  }

  /** So can those of a worker; a worker can answer and acknowledge any push to it; every note on its way can be handled;
      and bytes can arrive, and reads fail, at any time. */
  lemma {:induction false} OthersProceed(s: State, i: nat, n: nat, c: Conn, bytes: seq<byte>)
    requires Launching.Inv(s) && !s.crashed
    ensures i < |s.workers| && s.workers[i].reader.want.WantHeader? ==>
      (s.workers[i].taken + 45 <= |s.workers[i].received| <==> Enabled(s, Hears(i))) && Enabled(s, HearFails(i))
    ensures i < |s.workers| && s.workers[i].reader.want.WantBody? ==>
      (s.workers[i].taken + s.workers[i].reader.want.header.datasize <= |s.workers[i].received| <==> Enabled(s, Hears(i)))
      && Enabled(s, HearFails(i))
    ensures i < |s.workers| ==> Enabled(s, Reaches(i, bytes))
    ensures n < |s.pushes| && |bytes| < U32 ==> Enabled(s, Answers(n, bytes)) && Enabled(s, Acks(n))
    ensures i < |s.inFlight| ==> Enabled(s, NoteHandled(i))
    ensures c in s.clients ==> Enabled(s, Arrive(c, bytes))
    ensures c !in s.clients ==> Enabled(s, Accept(c))
    ensures i < |s.ops| ==> Enabled(s, ReadFails(i))
  {
    hide Launching.NoStranded, Launching.Woken, Launching.Placed, Launching.FirstJobs, AnyValid;
  }
}
