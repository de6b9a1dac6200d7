/** One token a connection: its one outstanding read, or its one unanswered trigger, or its end.

    Handler-atomic, with fresh salts and honest workers that answer each push at most once.
 */
module ServerTokens {
  import opened Wire
  import opened KeyHash
  import opened Framing
  import opened Server
  import opened Workers = ServerWorkers
  import Launching = ServerLaunching
  import Launcher

  // Counting ------------------------------------------------------------------------------------------------

  /** Outstanding reads on a connection. */
  function Reads(ops: seq<Op>, c: Conn): nat {
    if ops == [] then 0
    else Reads(ops[..|ops| - 1], c) + if ops[|ops| - 1].c == c then 1 else 0
  }

  lemma {:induction false} ReadsAppend(ops: seq<Op>, op: Op, c: Conn)
    ensures Reads(ops + [op], c) == Reads(ops, c) + if op.c == c then 1 else 0
  {
    assert (ops + [op])[..|ops|] == ops;
  }

  lemma {:induction false} ReadsDrop(ops: seq<Op>, i: nat, c: Conn)
    requires i < |ops|
    ensures Reads(Drop(ops, i), c) == Reads(ops, c) - if ops[i].c == c then 1 else 0
  {
    var n := |ops| - 1;
    if i == n {
      assert Drop(ops, i) == ops[..n];
    } else {
      ReadsDrop(ops[..n], i, c);
      assert Drop(ops, i) == Drop(ops[..n], i) + [ops[n]];
      ReadsAppend(Drop(ops[..n], i), ops[n], c);
    }
  }

  lemma {:induction false} ReadsZero(ops: seq<Op>, c: Conn)
    requires forall i :: 0 <= i < |ops| ==> ops[i].c != c
    ensures Reads(ops, c) == 0
  {
    if ops != [] {
      ReadsZero(ops[..|ops| - 1], c);
    }
  }

  lemma {:induction false} ReadsAtLeast(ops: seq<Op>, i: nat)
    requires i < |ops|
    ensures Reads(ops, ops[i].c) >= 1
  {
    ReadsDrop(ops, i, ops[i].c);
  }

  lemma {:induction false} ReadsTwice(ops: seq<Op>, i: nat, k: nat)
    requires i < |ops| && k < |ops| && i != k && ops[i].c == ops[k].c
    ensures Reads(ops, ops[i].c) >= 2
  {
    var rest := Drop(ops, i);
    var k' := if k < i then k else k - 1;
    assert rest[k'] == ops[k];
    ReadsAtLeast(rest, k');
    ReadsDrop(ops, i, ops[i].c);
  }

  /** The jobs a connection submitted, in order. */
  function JobsOf(jobs: seq<Job>, c: Conn): seq<JobId> {
    if jobs == [] then []
    else JobsOf(jobs[..|jobs| - 1], c) + if jobs[|jobs| - 1].origin == c then [|jobs| - 1] else []
  }

  lemma {:induction false} JobsOfAppend(jobs: seq<Job>, job: Job, c: Conn)
    ensures JobsOf(jobs + [job], c) == JobsOf(jobs, c) + if job.origin == c then [|jobs|] else []
  {
    assert (jobs + [job])[..|jobs|] == jobs;
  }

  lemma {:induction false} JobsOfNobody(jobs: seq<Job>, c: Conn)
    requires forall j :: 0 <= j < |jobs| ==> jobs[j].origin != c
    ensures JobsOf(jobs, c) == []
  {
    if jobs != [] {
      JobsOfNobody(jobs[..|jobs| - 1], c);
    }
  }

  lemma {:induction false} JobsOfHas(jobs: seq<Job>, j: JobId)
    requires j < |jobs|
    ensures j in JobsOf(jobs, jobs[j].origin)
  {
    if j < |jobs| - 1 {
      JobsOfHas(jobs[..|jobs| - 1], j);
    }
  }

  /** The jobs replied to on a connection, in order. */
  function Replied(ws: seq<Out>): seq<JobId> {
    if ws == [] then []
    else Replied(ws[..|ws| - 1]) + if ws[|ws| - 1].why.ForJob? then [ws[|ws| - 1].why.job] else []
  }

  lemma {:induction false} RepliedAppend(ws: seq<Out>, w: Out)
    ensures Replied(ws + [w]) == Replied(ws) + if w.why.ForJob? then [w.why.job] else []
  {
    assert (ws + [w])[..|ws|] == ws;
  }

  lemma {:induction false} RepliedByReaders(ws: seq<Out>, ps: seq<Packet>)
    ensures Replied(ws + ByReaders(ps)) == Replied(ws)
  {
    if ps == [] {
      assert ws + ByReaders(ps) == ws;
    } else {
      var n := |ps| - 1;
      assert ws + ByReaders(ps) == (ws + ByReaders(ps[..n])) + [Out(ps[n], ByReader)];
      RepliedAppend(ws + ByReaders(ps[..n]), Out(ps[n], ByReader));
      RepliedByReaders(ws, ps[..n]);
    }
  }

  lemma {:induction false} RepliedIsWritten(ws: seq<Out>, n: nat) returns (i: nat)
    requires n < |Replied(ws)|
    ensures i < |ws| && ws[i].why.ForJob? && ws[i].why.job == Replied(ws)[n]
  {
    var m := |ws| - 1;
    if n < |Replied(ws[..m])| {
      i := RepliedIsWritten(ws[..m], n);
    } else {
      i := m;
    }
  }

  // The invariant -----------------------------------------------------------------------------------------------

  /** The replies on a connection answer its jobs one by one, in order; and reads, jobs still open, and the
      end of the connection together make exactly one. */
  ghost predicate Balanced(s: State, c: Conn)
    requires c in s.clients
  {
    var k := s.clients[c];
    && Replied(k.written) <= JobsOf(s.jobs, c)
    && Reads(s.ops, c) + (|JobsOf(s.jobs, c)| - |Replied(k.written)|) + (if k.ended then 1 else 0) == 1
  }

  ghost predicate AllBalanced(s: State) {
    forall c :: c in s.clients ==> Balanced(s, c)
  }

  ghost predicate SaltsDiffer(s: State) {
    && (forall i, j :: 0 <= i < j < |s.jobs| ==> s.jobs[i].pack.header.salt != s.jobs[j].pack.header.salt)
    && (forall j :: 0 <= j < |s.jobs| ==> s.jobs[j].pack.header.key == Launcher.ZERO_KEY)
    && (forall j :: 0 <= j < |s.jobs| ==> s.jobs[j].pack.header.typ == WORKER_PUSH_REQUEST)
  }

  ghost predicate NotesDiffer(s: State) {
    forall i, k :: 0 <= i < k < |s.inFlight| ==> s.inFlight[i] != s.inFlight[k]
  }

  predicate AnswersPush(s: State, note: Note, push: nat) {
    note.w < |s.workers| && note.n < |s.workers[note.w].said| &&
    s.workers[note.w].said[note.n].Answered? && s.workers[note.w].said[note.n].push == push
  }

  /** A push is answered at most once, by all workers together. */
  ghost predicate AnsweredOnce(s: State) {
    forall a, b, push :: AnswersPush(s, a, push) && AnswersPush(s, b, push) ==> a == b
  }

  /** A response. */
  predicate IsReply(s: State, note: Note) {
    NoteKnown(s, note) && PacketOf(s, note).header.typ == WORKER_RESPONSE
  }

  ghost predicate UnrepliedNote(s: State, note: Note) {
    IsReply(s, note) ==>
      Meant(s, note) && forall c :: c in s.clients ==> AskedBy(s, note) !in Replied(s.clients[c].written)
  }

  /** No response on its way is about a job that was replied to. */
  ghost predicate UnrepliedInFlight(s: State) {
    forall i :: 0 <= i < |s.inFlight| ==> UnrepliedNote(s, s.inFlight[i])
  }

  ghost predicate Inv(s: State) {
    && Workers.Inv(s)
    && AllBalanced(s) && SaltsDiffer(s) && NotesDiffer(s) && AnsweredOnce(s) && UnrepliedInFlight(s)
  }

  // Uniqueness ------------------------------------------------------------------------------------------------

  /** With distinct salts the map finds the job itself. */
  lemma {:induction false} FindsItself(s: State, j: JobId)
    requires SaltsDiffer(s) && Launching.FirstJobs(s) && j < |s.jobs|
    ensures KeyOfJob(s, j) in s.mapped && s.mapped[KeyOfJob(s, j)] == j
  {
    var i := s.mapped[KeyOfJob(s, j)];
    assert KeyOfJob(s, i) == KeyOfJob(s, j);
  }

  lemma {:induction false} MultisetTwice<T>(q: seq<T>, i: nat, k: nat)
    requires i < k < |q| && q[i] == q[k]
    ensures multiset(q)[q[i]] >= 2
  {
    assert q == q[..k] + [q[k]] + q[k + 1..];
    assert q[i] in q[..k];
    assert multiset(q) == multiset(q[..k]) + multiset([q[k]]) + multiset(q[k + 1..]);
  }

  lemma {:induction false} PushedOnce(s: State, i: nat, k: nat)
    requires Launching.Placed(s) && Launching.KnownJobs(s)
    requires i < |s.pushes| && k < |s.pushes| && s.pushes[i].job == s.pushes[k].job
    ensures i == k
  {
    var js := Launching.PushedJobs(s.pushes);
    if i != k {
      var placed := multiset(s.queue) + multiset(js);
      assert placed == multiset(Launching.Ids(|s.jobs|));
      MultisetTwice(js, if i < k then i else k, if i < k then k else i);
      assert placed[js[i]] >= 2;
      Launching.IdsOnce(|s.jobs|, js[i]);
    }
  }

  // Steps: salts, answers and notes ------------------------------------------------------------------------------

  lemma {:induction false} StepKeepsSalts(s: State, a: Step)
    requires Enabled(s, a) && SaltsDiffer(s) && (a.BodyDone? ==> FreshSalt(s, a.salt))
    ensures SaltsDiffer(Apply(s, a))
  {
    hide ParseHeader;
    if a.BodyDone? && Launching.IsLaunching(s, a) {
      Launching.TriggerIsSubmit(s, a.i, a.choice, a.sequence, a.salt);
      var u := Apply(s, a);
      assert u.jobs == s.jobs + [NewJob(s.ops[a.i].c, Delivered(s, a.i), a.sequence, a.salt)];
    } else {
      Launching.SameJobs(s, a);
    }
  }

  lemma {:induction false} AnswerWasGiven(s: State, note: Note, push: nat)
    requires AllTrue(s) && AnswersPush(s, note, push)
    ensures exists g :: 0 <= g < |s.given| && s.given[g].push == push
  {
    var say := s.workers[note.w].said[note.n];
    assert SayTrue(s, note.w, say);
    var g :| 0 <= g < |s.given| && s.given[g] == Answer(push, say.packet);
  }

  /** Where an answer after the step was given. */
  lemma {:induction false} AnswerBefore(s: State, a: Step, note: Note, push: nat)
    requires Enabled(s, a) && AnswersPush(Apply(s, a), note, push)
    ensures AnswersPush(s, note, push) ||
      (a.Answers? && a.push == push && note.w == s.pushes[push].w < |s.workers| && note.n == |s.workers[note.w].said|)
  {
    if note.w < |s.workers| {
      SaidGives(s, a, note.w);
    } else {
      NewWorkerGives(s, a, note.w);
    }
    hide Apply, Response, ParseHeader;
  }

  lemma {:induction false} StepKeepsAnsweredOnce(s: State, a: Step)
    requires Enabled(s, a) && AllTrue(s) && AnsweredOnce(s) && (a.Answers? ==> Unanswered(s, a.push))
    ensures AnsweredOnce(Apply(s, a))
  {
    hide Apply, Enabled, AllTrue, AnswersPush;
    var u := Apply(s, a);
    forall x, y, push | AnswersPush(u, x, push) && AnswersPush(u, y, push)
      ensures x == y
    {
      AnswerBefore(s, a, x, push);
      AnswerBefore(s, a, y, push);
      if AnswersPush(s, x, push) {
        AnswerWasGiven(s, x, push);
      }
      if AnswersPush(s, y, push) {
        AnswerWasGiven(s, y, push);
      }
    }
  }

  lemma {:induction false} StepKeepsNotesDiffer(s: State, a: Step)
    requires Enabled(s, a) && NotesDiffer(s) && Launching.KnownNotes(s)
    ensures NotesDiffer(Apply(s, a))
  {
    Launching.NotesGive(s, a);
    hide Apply, Enabled, HearingLink;
    var u := Apply(s, a);
    if a.Hears? {
      assert forall i :: 0 <= i < |s.inFlight| ==> u.inFlight[i] == s.inFlight[i] && NoteKnown(s, s.inFlight[i]);
    } else if a.NoteHandled? {
      assert forall i :: 0 <= i < |u.inFlight| ==> u.inFlight[i] == s.inFlight[if i < a.i then i else i + 1];
      hide Drop;
    }
  }

  // Steps: what happens to one connection --------------------------------------------------------------------------

  /** What a completed header read makes of its own connection, and the read that follows. */
  function HeaderLink(k: Link, h: Header): Link {
    var t := k.(taken := k.taken + HEADER_SIZE);
    var seen := t.(handled := k.handled + [Packet(h, [])]);
    if !KnownType(h.typ) then t.(ended := true)
    else if CarriesBody(Client, h.typ) then t
    else if h.typ == WORKER_REG then seen.(ended := true, moved := true)
    else seen.(written := k.written + ByReaders(ReaderReply(Client, h)))
  }

  function HeaderNext(c: Conn, h: Header): seq<Op> {
    if !KnownType(h.typ) || h.typ == WORKER_REG then []
    else if CarriesBody(Client, h.typ) then [ReadBody(c, h)]
    else [ReadHeader(c)]
  }

  lemma {:induction false} HeaderGives(s: State, i: nat, choice: nat, noise: seq<Packet>)
    requires Enabled(s, HeaderDone(i, choice, noise))
    ensures var c := s.ops[i].c; var h := ParseHeader(Delivered(s, i)); var u := OnHeader(s, i, choice, noise);
      && u.jobs == s.jobs && u.ops == Drop(s.ops, i) + HeaderNext(c, h)
      && u.clients == s.clients[c := HeaderLink(s.clients[c], h)]
  {
    var h := ParseHeader(Delivered(s, i));
    hide ParseHeader, Launcher.Drain, Enabled, ReaderReply, NewWorker;
    assert Drop(s.ops, i) + [] == Drop(s.ops, i);
  }

  function BodyLink(k: Link, p: Packet): Link {
    k.(taken := k.taken + |p.data|, handled := k.handled + [p])
  }

  lemma {:induction false} BodyGives(s: State, a: Step)
    requires a.BodyDone? && Enabled(s, a)
    ensures var c := s.ops[a.i].c; var h := s.ops[a.i].header; var u := Apply(s, a); var b := Delivered(s, a.i);
      && u.clients == s.clients[c := BodyLink(s.clients[c], Packet(h, b))]
      && (h.typ == TRIGGER ==> u.ops == Drop(s.ops, a.i) && u.jobs == s.jobs + [NewJob(c, b, a.sequence, a.salt)])
      && (h.typ != TRIGGER ==> u.ops == Drop(s.ops, a.i) + [ReadHeader(c)] && u.jobs == s.jobs)
  {
    hide Launcher.Drain;
  }

  lemma {:induction false} FailureGives(s: State, i: nat)
    requires Enabled(s, ReadFails(i))
    ensures var c := s.ops[i].c; var u := Apply(s, ReadFails(i));
      u.jobs == s.jobs && u.ops == Drop(s.ops, i) + [] && u.clients == s.clients[c := s.clients[c].(ended := true)]
  {
  }

  predicate IsQuiet(a: Step) {
    a.BrokerWrites? || a.Arrive? || a.Answers? || a.Acks? || a.Says? || a.Reaches? || a.Hears? || a.HearFails?
  }

  /** Steps after which every connection has read, ended and replied as before. */
  lemma {:induction false} QuietGives(s: State, a: Step)
    requires Enabled(s, a) && IsQuiet(a)
    ensures var u := Apply(s, a);
      && u.ops == s.ops && u.jobs == s.jobs && u.clients.Keys == s.clients.Keys
      && forall d :: d in s.clients ==>
        var k, q := s.clients[d], u.clients[d];
        q.taken == k.taken && k.received <= q.received && q.handled == k.handled && q.ended == k.ended
        && Replied(q.written) == Replied(k.written)
  {
    hide Replied, Response, HearingLink, Posted;
    if a.BrokerWrites? {
      BrokerGives(s, a);
    } else if a.Arrive? {
      assert Apply(s, a).clients == s.clients[a.c := s.clients[a.c].(received := s.clients[a.c].received + a.bytes)];
    } else {
      assert Apply(s, a).clients == s.clients;
    }
  }

  lemma {:induction false} BrokerGives(s: State, a: Step)
    requires Enabled(s, a) && a.BrokerWrites?
    ensures Replied(s.clients[a.c].written + [Out(a.packet, ByBroker)]) == Replied(s.clients[a.c].written)
    ensures Apply(s, a).clients ==
      s.clients[a.c := s.clients[a.c].(written := s.clients[a.c].written + [Out(a.packet, ByBroker)])]
  {
    RepliedAppend(s.clients[a.c].written, Out(a.packet, ByBroker));
    hide Replied;
  }

  // Steps: the balance of one connection ---------------------------------------------------------------------------

  /** A completed or failed read on `c` is replaced by another, or by the end of the connection. */
  lemma {:induction false} SwapKeepsBalance(s: State, i: nat, u: State, c: Conn, k: Link, next: seq<Op>)
    requires AllBalanced(s) && i < |s.ops| && s.ops[i].c == c && c in s.clients
    requires u.clients == s.clients[c := k] && u.jobs == s.jobs && u.ops == Drop(s.ops, i) + next
    requires Replied(k.written) == Replied(s.clients[c].written)
    requires (next == [] && k.ended) || (|next| == 1 && next[0].c == c && k.ended == s.clients[c].ended)
    ensures AllBalanced(u)
  {
    hide Replied, JobsOf, Reads, Drop;
    forall d | d in u.clients
      ensures Balanced(u, d)
    {
      assert Balanced(s, c) && Balanced(s, d);
      ReadsAtLeast(s.ops, i);
      ReadsDrop(s.ops, i, d);
      if next == [] {
        assert u.ops == Drop(s.ops, i);
      } else {
        assert u.ops == Drop(s.ops, i) + [next[0]];
        ReadsAppend(Drop(s.ops, i), next[0], d);
      }
    }
  }

  lemma {:induction false} HeaderLinkWrites(k: Link, c: Conn, h: Header)
    ensures var q := HeaderLink(k, h); var next := HeaderNext(c, h);
      && Replied(q.written) == Replied(k.written)
      && ((next == [] && q.ended) || (|next| == 1 && next[0].c == c && q.ended == k.ended))
  {
    RepliedByReaders(k.written, ReaderReply(Client, h));
    hide Replied, ReaderReply;
  }

  lemma {:induction false} HeaderKeepsBalance(s: State, i: nat, choice: nat, noise: seq<Packet>)
    requires Enabled(s, HeaderDone(i, choice, noise)) && AllBalanced(s)
    ensures AllBalanced(OnHeader(s, i, choice, noise))
  {
    var c, h := s.ops[i].c, ParseHeader(Delivered(s, i));
    assert c in s.clients;
    hide *;
    HeaderGives(s, i, choice, noise);
    HeaderLinkWrites(s.clients[c], c, h);
    SwapKeepsBalance(s, i, OnHeader(s, i, choice, noise), c, HeaderLink(s.clients[c], h), HeaderNext(c, h));
  }

  lemma {:induction false} TriggerKeepsBalance(s: State, i: nat, u: State, c: Conn, k: Link, job: Job)
    requires AllBalanced(s) && i < |s.ops| && s.ops[i].c == c && c in s.clients
    requires u.clients == s.clients[c := k] && u.jobs == s.jobs + [job] && u.ops == Drop(s.ops, i) && job.origin == c
    requires k.written == s.clients[c].written && k.ended == s.clients[c].ended
    ensures AllBalanced(u)
  {
    hide JobsOf, Replied, Reads, Drop;
    forall d | d in u.clients
      ensures Balanced(u, d)
    {
      assert Balanced(s, c) && Balanced(s, d);
      ReadsAtLeast(s.ops, i);
      ReadsDrop(s.ops, i, d);
      JobsOfAppend(s.jobs, job, d);
    }
  }

  lemma {:induction false} BodyKeepsBalance(s: State, a: Step)
    requires a.BodyDone? && Enabled(s, a) && AllBalanced(s)
    ensures AllBalanced(Apply(s, a))
  {
    var ReadBody(c, h) := s.ops[a.i];
    var k := s.clients[c];
    var p := Packet(h, Delivered(s, a.i));
    var job := NewJob(c, p.data, a.sequence, a.salt);
    var q := BodyLink(k, p);
    assert job.origin == c && q.written == k.written && q.ended == k.ended;
    hide *;
    BodyGives(s, a);
    if h.typ == TRIGGER {
      TriggerKeepsBalance(s, a.i, Apply(s, a), c, q, job);
    } else {
      SwapKeepsBalance(s, a.i, Apply(s, a), c, q, [ReadHeader(c)]);
    }
  }

  lemma {:induction false} AcceptKeepsBalance(s: State, c: Conn)
    requires Enabled(s, Accept(c)) && AllBalanced(s) && Launching.KnownConns(s)
    ensures AllBalanced(Apply(s, Accept(c)))
  {
    var u := Apply(s, Accept(c));
    forall d | d in u.clients
      ensures Balanced(u, d)
    {
      ReadsAppend(s.ops, ReadHeader(c), d);
      if d == c {
        ReadsZero(s.ops, c);
        JobsOfNobody(s.jobs, c);
      } else {
        assert Balanced(s, d);
      }
    }
  }

  lemma {:induction false} PrefixMissing(p: seq<JobId>, q: seq<JobId>, j: JobId)
    requires p <= q && |q| <= |p| + 1 && j in q && j !in p
    ensures q == p + [j]
  {
    assert forall k :: 0 <= k < |p| ==> q[k] == p[k] && p[k] in p;
    var n :| 0 <= n < |q| && q[n] == j;
  }

  /** A response on its way is about the one open job of the connection that submitted it. */
  lemma {:induction false} ReplyIsToOpenJob(s: State, i: nat) returns (j: JobId, c: Conn)
    requires Inv(s) && i < |s.inFlight| && IsReply(s, s.inFlight[i])
    ensures Meant(s, s.inFlight[i]) && j == AskedBy(s, s.inFlight[i]) < |s.jobs|
    ensures KeyOf(PacketOf(s, s.inFlight[i]).header) in s.mapped
    ensures s.mapped[KeyOf(PacketOf(s, s.inFlight[i]).header)] == j
    ensures c == s.jobs[j].origin && c in s.clients && !s.clients[c].moved
    ensures JobsOf(s.jobs, c) == Replied(s.clients[c].written) + [j]
  {
    hide AllSound, AllTrue, AllHonest, NotesTyped, GenuineReplies, Meant, JobsOf, Replied;
    assert UnrepliedNote(s, s.inFlight[i]);
    MeantIsMapped(s, s.inFlight[i]);
    j := AskedBy(s, s.inFlight[i]);
    FindsItself(s, j);
    c := s.jobs[j].origin;
    assert c in s.clients && Balanced(s, c);
    JobsOfHas(s.jobs, j);
    PrefixMissing(Replied(s.clients[c].written), JobsOf(s.jobs, c), j);
  }

  /** The reply to it goes to that connection, which then reads again. */
  lemma {:induction false} ReplyGives(s: State, i: nat) returns (j: JobId, c: Conn, out: Out)
    requires Inv(s) && Enabled(s, NoteHandled(i)) && IsReply(s, s.inFlight[i])
    ensures i < |s.inFlight| && Meant(s, s.inFlight[i]) && j == AskedBy(s, s.inFlight[i])
    ensures c in s.clients && JobsOf(s.jobs, c) == Replied(s.clients[c].written) + [j]
    ensures out.why == ForJob(j, s.inFlight[i]) && out.packet == PacketOf(s, s.inFlight[i])
    ensures OnNote(s, i).ops == s.ops + [ReadHeader(c)]
    ensures OnNote(s, i).clients == s.clients[c := s.clients[c].(written := s.clients[c].written + [out])]
  {
    assert i < |s.inFlight| && Launching.KnownConns(s) && Launching.FirstJobs(s);
    assert PacketOf(s, s.inFlight[i]).header.typ == WORKER_RESPONSE;
    hide *;
    j, c := ReplyIsToOpenJob(s, i);
    out := Out(PacketOf(s, s.inFlight[i]), ForJob(j, s.inFlight[i]));
    NoteGives(s, i);
  }

  /** The handler of an ack changes nothing here, and no handler of a note anything else. */
  lemma {:induction false} NoteLeaves(s: State, i: nat)
    requires Enabled(s, NoteHandled(i))
    ensures Apply(s, NoteHandled(i)) == OnNote(s, i)
    ensures var u := OnNote(s, i);
      u.jobs == s.jobs && u.inFlight == Drop(s.inFlight, i) && u.workers == s.workers && u.pushes == s.pushes
    ensures !IsReply(s, s.inFlight[i]) ==> OnNote(s, i).clients == s.clients && OnNote(s, i).ops == s.ops
  {
  }

  lemma {:induction false} ReplyKeepsBalance(s: State, u: State, c: Conn, j: JobId, written: seq<Out>)
    requires AllBalanced(s) && c in s.clients && JobsOf(s.jobs, c) == Replied(s.clients[c].written) + [j]
    requires u.jobs == s.jobs && u.ops == s.ops + [ReadHeader(c)]
    requires u.clients == s.clients[c := s.clients[c].(written := written)]
    requires Replied(written) == Replied(s.clients[c].written) + [j]
    ensures AllBalanced(u)
  {
    hide JobsOf, Replied, Reads;
    forall d | d in u.clients
      ensures Balanced(u, d)
    {
      assert Balanced(s, d);
      ReadsAppend(s.ops, ReadHeader(c), d);
    }
  }

  lemma {:induction false} ReplyNoteBalances(s: State, i: nat)
    requires Inv(s) && AllBalanced(s) && Enabled(s, NoteHandled(i)) && IsReply(s, s.inFlight[i])
    ensures AllBalanced(OnNote(s, i))
  {
    assert i < |s.inFlight| && NoteKnown(s, s.inFlight[i]);
    hide *;
    NoteLeaves(s, i);
    var j, c, out := ReplyGives(s, i);
    RepliedAppend(s.clients[c].written, out);
    ReplyKeepsBalance(s, OnNote(s, i), c, j, s.clients[c].written + [out]);
  }

  lemma {:induction false} AckNoteBalances(s: State, i: nat)
    requires AllBalanced(s) && Enabled(s, NoteHandled(i)) && !IsReply(s, s.inFlight[i])
    ensures AllBalanced(OnNote(s, i))
  {
    assert i < |s.inFlight| && NoteKnown(s, s.inFlight[i]);
    hide *;
    NoteLeaves(s, i);
    QuietKeepsBalance(s, OnNote(s, i));
  }

  lemma {:induction false} NoteKeepsBalance(s: State, i: nat)
    requires Inv(s) && Enabled(s, NoteHandled(i))
    ensures AllBalanced(OnNote(s, i))
  {
    assert AllBalanced(s);
    hide *;
    if IsReply(s, s.inFlight[i]) {
      ReplyNoteBalances(s, i);
    } else {
      AckNoteBalances(s, i);
    }
  }

  /** Nothing that counts has changed. */
  lemma {:induction false} QuietKeepsBalance(s: State, u: State)
    requires AllBalanced(s) && u.ops == s.ops && u.jobs == s.jobs && u.clients.Keys == s.clients.Keys
    requires forall d :: d in s.clients ==>
      Replied(u.clients[d].written) == Replied(s.clients[d].written) && u.clients[d].ended == s.clients[d].ended
    ensures AllBalanced(u)
  {
    hide Replied, JobsOf, Reads;
    forall d | d in u.clients
      ensures Balanced(u, d)
    {
      assert Balanced(s, d);
    }
  }

  lemma {:induction false} FailureKeepsBalance(s: State, i: nat)
    requires AllBalanced(s) && Enabled(s, ReadFails(i))
    ensures AllBalanced(Apply(s, ReadFails(i)))
  {
    var c := s.ops[i].c;
    assert c in s.clients;
    hide *;
    FailureGives(s, i);
    SwapKeepsBalance(s, i, Apply(s, ReadFails(i)), c, s.clients[c].(ended := true), []);
  }

  lemma {:induction false} HeaderApplies(s: State, i: nat, choice: nat, noise: seq<Packet>)
    requires Enabled(s, HeaderDone(i, choice, noise))
    ensures Apply(s, HeaderDone(i, choice, noise)) == OnHeader(s, i, choice, noise)
  {
    hide OnHeader;
  }

  lemma {:induction false} StepKeepsBalance(s: State, a: Step)
    requires Inv(s) && Enabled(s, a)
    ensures AllBalanced(Apply(s, a))
  {
    assert a.Accept? || a.HeaderDone? || a.BodyDone? || a.NoteHandled? || a.ReadFails? || IsQuiet(a);
    assert AllBalanced(s) && Launching.KnownConns(s);
    hide *;
    match a
    case Accept(c) => AcceptKeepsBalance(s, c);
    case HeaderDone(i, choice, noise) =>
      HeaderApplies(s, i, choice, noise);
      HeaderKeepsBalance(s, i, choice, noise);
    case BodyDone(_, _, _, _) => BodyKeepsBalance(s, a);
    case NoteHandled(i) =>
      NoteLeaves(s, i);
      NoteKeepsBalance(s, i);
    case ReadFails(i) => FailureKeepsBalance(s, i);
    case _ =>
      QuietGives(s, a);
      QuietKeepsBalance(s, Apply(s, a));
  }

  // Steps: responses and replies -----------------------------------------------------------------------------------

  lemma {:induction false} SameReplies(s: State, a: Step, c: Conn)
    requires Enabled(s, a) && !a.NoteHandled? && c in Apply(s, a).clients
    ensures Replied(Apply(s, a).clients[c].written) == if c in s.clients then Replied(s.clients[c].written) else []
  {
    if IsQuiet(a) {
      QuietGives(s, a);
      hide Apply, Enabled, Replied;
    } else if a.HeaderDone? {
      HeaderGives(s, a.i, a.choice, a.noise);
      HeaderLinkWrites(s.clients[s.ops[a.i].c], s.ops[a.i].c, ParseHeader(Delivered(s, a.i)));
      hide OnHeader, Replied, HeaderLink, HeaderNext, ParseHeader;
    } else if a.BodyDone? {
      BodyGives(s, a);
      hide Apply, Replied;
    } else {
      hide OnHeader, OnBody;
    }
  }

  lemma {:induction false} ReplyIsGenuine(s: State, c: Conn, i: nat)
    requires Inv(s) && c in s.clients && i < |s.clients[c].written| && s.clients[c].written[i].why.ForJob?
    ensures GenuineReply(s, c, s.clients[c].written[i])
    ensures AskedBy(s, s.clients[c].written[i].why.note) == s.clients[c].written[i].why.job
    ensures IsReply(s, s.clients[c].written[i].why.note)
  {
    hide AllBalanced, UnrepliedInFlight, NotesDiffer, AnsweredOnce, AllSound, AllTrue, AllHonest, NotesTyped;
    assert GenuineReply(s, c, s.clients[c].written[i]);
    MeantIsMapped(s, s.clients[c].written[i].why.note);
    FindsItself(s, AskedBy(s, s.clients[c].written[i].why.note));
  }

  lemma {:induction false} SameNote(s: State, a: Note, b: Note, push: nat)
    requires AnsweredOnce(s) && AnswersPush(s, a, push) && AnswersPush(s, b, push)
    ensures a == b
  {
  }

  /** The note of a reply that was written about job `j`. */
  lemma {:induction false} RepliedNote(s: State, c: Conn, j: JobId) returns (note: Note)
    requires Inv(s) && c in s.clients && j in Replied(s.clients[c].written)
    ensures Meant(s, note) && IsReply(s, note) && AskedBy(s, note) == j
  {
    var ws := s.clients[c].written;
    var m :| 0 <= m < |Replied(ws)| && Replied(ws)[m] == j;
    hide Inv, Replied;
    var i := RepliedIsWritten(ws, m);
    ReplyIsGenuine(s, c, i);
    note := ws[i].why.note;
  }

  /** A note that nobody has posted yet: its job has not been replied to in any state that led here. */
  lemma {:induction false} NewNoteIsUnreplied(s: State, u: State, note: Note, c: Conn)
    requires Inv(s) && Workers.Inv(u) && AnsweredOnce(u) && Launching.Grows(s, u) && !NoteKnown(s, note)
    requires Meant(u, note) && IsReply(u, note) && c in s.clients
    ensures AskedBy(u, note) !in Replied(s.clients[c].written)
  {
    hide Inv, Workers.Inv, Replied, Launching.Grows, Meant, AnsweredOnce;
    if AskedBy(u, note) in Replied(s.clients[c].written) {
      var was := RepliedNote(s, c, AskedBy(u, note));
      MeantStays(s, u, was);
      Launching.NoteStays(s, u, was);
      SameJobSameNote(u, was, note);
    }
  }

  /** Two responses about one job are the same note. */
  lemma {:induction false} SameJobSameNote(u: State, a: Note, b: Note)
    requires Workers.Inv(u) && AnsweredOnce(u) && Meant(u, a) && Meant(u, b) && IsReply(u, a) && IsReply(u, b)
    requires AskedBy(u, a) == AskedBy(u, b)
    ensures a == b
  {
    assert Launching.Placed(u) && Launching.KnownJobs(u);
    var x, y := u.workers[a.w].said[a.n], u.workers[b.w].said[b.n];
    hide Workers.Inv, AnsweredOnce, Launching.Placed, Launching.KnownJobs;
    assert x.Answered? && y.Answered? && x.push < |u.pushes| && y.push < |u.pushes|;
    hide Meant;
    PushedOnce(u, x.push, y.push);
    SameNote(u, a, b, x.push);
  }

  lemma {:induction false} OtherNoteOtherJob(s: State, i: nat, k: nat)
    requires Inv(s) && i < |s.inFlight| && k < |s.inFlight| && i != k
    requires IsReply(s, s.inFlight[i]) && IsReply(s, s.inFlight[k])
    ensures Meant(s, s.inFlight[i]) && Meant(s, s.inFlight[k])
    ensures AskedBy(s, s.inFlight[i]) != AskedBy(s, s.inFlight[k])
  {
    assert NotesDiffer(s) && UnrepliedNote(s, s.inFlight[i]) && UnrepliedNote(s, s.inFlight[k]);
    assert Workers.Inv(s) && AnsweredOnce(s);
    hide Inv, Workers.Inv, Meant, AnsweredOnce;
    if AskedBy(s, s.inFlight[i]) == AskedBy(s, s.inFlight[k]) {
      SameJobSameNote(s, s.inFlight[i], s.inFlight[k]);
    }
  }

  /** A note that stays on its way while the replies on `c` become `ws` stays unreplied, if its job is not the
      new one. */
  lemma {:induction false} StaysUnreplied(s: State, u: State, note: Note)
    requires Launching.Grows(s, u) && UnrepliedNote(s, note) && NoteKnown(s, note)
    requires forall c :: c in u.clients && IsReply(s, note) && Meant(s, note) ==>
      (c in s.clients && AskedBy(s, note) !in Replied(s.clients[c].written) ==> AskedBy(s, note) !in Replied(u.clients[c].written))
      && (c !in s.clients ==> Replied(u.clients[c].written) == [])
    ensures UnrepliedNote(u, note)
  {
    hide Launching.Grows, Meant, Replied;
    Launching.NoteStays(s, u, note);
    if IsReply(u, note) {
      assert IsReply(s, note);
      MeantStays(s, u, note);
    }
  }

  lemma {:induction false} WasUnreplied(s: State, i: nat)
    requires Inv(s) && i < |s.inFlight|
    ensures UnrepliedNote(s, s.inFlight[i]) && NoteKnown(s, s.inFlight[i])
  {
    assert UnrepliedInFlight(s) && Launching.KnownNotes(s);
  }

  lemma {:induction false} NotesBefore(s: State, a: Step, i: nat)
    requires Enabled(s, a) && !a.NoteHandled? && i < |Apply(s, a).inFlight|
    ensures i < |s.inFlight| ==> Apply(s, a).inFlight[i] == s.inFlight[i]
    ensures i >= |s.inFlight| ==> a.Hears? && !NoteKnown(s, Apply(s, a).inFlight[i])
  {
    Launching.NotesGive(s, a);
    hide Apply, Enabled, HearingLink, Posted;
  }

  lemma {:induction false} QuietStaysUnreplied(s: State, a: Step, i: nat)
    requires Inv(s) && Enabled(s, a) && !a.NoteHandled? && i < |s.inFlight|
    ensures UnrepliedNote(Apply(s, a), s.inFlight[i])
  {
    hide *;
    WasUnreplied(s, i);
    Launching.StepGrows(s, a);
    forall c | c in Apply(s, a).clients
      ensures Replied(Apply(s, a).clients[c].written) == if c in s.clients then Replied(s.clients[c].written) else []
    {
      SameReplies(s, a, c);
    }
    StaysUnreplied(s, Apply(s, a), s.inFlight[i]);
  }

  lemma {:induction false} QuietKeepsUnreplied(s: State, a: Step)
    requires Inv(s) && Enabled(s, a) && !a.NoteHandled? && Workers.Inv(Apply(s, a)) && AnsweredOnce(Apply(s, a))
    ensures UnrepliedInFlight(Apply(s, a))
  {
    hide Inv, Apply, Enabled, Workers.Inv, AnsweredOnce, UnrepliedNote;
    var u := Apply(s, a);
    forall i | 0 <= i < |u.inFlight|
      ensures UnrepliedNote(u, u.inFlight[i])
    {
      NotesBefore(s, a, i);
      if i < |s.inFlight| {
        QuietStaysUnreplied(s, a, i);
      } else {
        NewIsUnreplied(s, a, u.inFlight[i]);
      }
    }
  }

  lemma {:induction false} NewIsUnreplied(s: State, a: Step, note: Note)
    requires Inv(s) && a.Hears? && Enabled(s, a) && Workers.Inv(Apply(s, a)) && AnsweredOnce(Apply(s, a))
    requires note in Apply(s, a).inFlight && !NoteKnown(s, note)
    ensures UnrepliedNote(Apply(s, a), note)
  {
    hide Inv, Workers.Inv, AnsweredOnce, Launching.Grows, HearingLink, Replied, Meant, Posted;
    var u := Apply(s, a);
    assert u.clients == s.clients;
    Launching.StepGrows(s, a);
    hide Apply, Enabled;
    if IsReply(u, note) {
      var i :| 0 <= i < |u.inFlight| && u.inFlight[i] == note;
      NoteIsMeant(u, i);
      forall c | c in u.clients
        ensures AskedBy(u, note) !in Replied(u.clients[c].written)
      {
        NewNoteIsUnreplied(s, u, note, c);
      }
    }
  }

  lemma {:induction false} DropAt<T>(q: seq<T>, i: nat, n: nat)
    requires i < |q| && n < |q| - 1
    ensures Drop(q, i)[n] == q[if n < i then n else n + 1]
  {
  }

  lemma {:induction false} NoteKeepsUnreplied(s: State, i: nat)
    requires Inv(s) && Enabled(s, NoteHandled(i))
    ensures UnrepliedInFlight(OnNote(s, i))
  {
    assert i < |s.inFlight|;
    hide Inv, OnNote, Apply, Enabled, UnrepliedNote, Drop;
    NoteLeaves(s, i);
    var u := OnNote(s, i);
    forall n | 0 <= n < |u.inFlight|
      ensures UnrepliedNote(u, u.inFlight[n])
    {
      DropAt(s.inFlight, i, n);
      OtherStaysUnreplied(s, i, if n < i then n else n + 1);
    }
  }

  lemma {:induction false} OtherStaysUnreplied(s: State, i: nat, m: nat)
    requires Inv(s) && Enabled(s, NoteHandled(i)) && i < |s.inFlight| && m < |s.inFlight| && m != i
    ensures UnrepliedNote(OnNote(s, i), s.inFlight[m])
  {
    assert NoteKnown(s, s.inFlight[i]);
    hide *;
    WasUnreplied(s, m);
    NoteGrows(s, i);
    NoteLeaves(s, i);
    if IsReply(s, s.inFlight[i]) {
      var j, c, out := ReplyGives(s, i);
      RepliedAppend(s.clients[c].written, out);
      if IsReply(s, s.inFlight[m]) {
        OtherNoteOtherJob(s, i, m);
      }
      OneMoreReply(s, OnNote(s, i), s.inFlight[m], c, s.clients[c].written + [out], j);
    } else {
      StaysUnreplied(s, OnNote(s, i), s.inFlight[m]);
    }
  }

  lemma {:induction false} OneMoreReply(s: State, u: State, note: Note, c: Conn, written: seq<Out>, j: JobId)
    requires Launching.Grows(s, u) && UnrepliedNote(s, note) && NoteKnown(s, note)
    requires c in s.clients && u.clients == s.clients[c := s.clients[c].(written := written)]
    requires Replied(written) == Replied(s.clients[c].written) + [j]
    requires IsReply(s, note) ==> AskedBy(s, note) != j
    ensures UnrepliedNote(u, note)
  {
    hide Launching.Grows, Meant, Replied, IsReply, AskedBy;
    StaysUnreplied(s, u, note);
  }

  lemma {:induction false} StepKeepsUnreplied(s: State, a: Step)
    requires Inv(s) && Enabled(s, a) && Workers.Inv(Apply(s, a)) && AnsweredOnce(Apply(s, a))
    ensures UnrepliedInFlight(Apply(s, a))
  {
    hide *;
    if a.NoteHandled? {
      NoteLeaves(s, a.i);
      NoteKeepsUnreplied(s, a.i);
    } else {
      QuietKeepsUnreplied(s, a);
    }
  }

  // Runs -----------------------------------------------------------------------------------------------------------

  const FAIR := Assumptions(true, true, true)

  lemma {:induction false} StepKeepsInv(s: State, a: Step)
    requires Inv(s) && Allowed(FAIR, s, a)
    ensures Inv(Apply(s, a))
  {
    assert AllTrue(s) && Launching.KnownNotes(s);
    hide Workers.Inv, AllBalanced, SaltsDiffer, NotesDiffer, AnsweredOnce, UnrepliedInFlight, Apply, Enabled, KeepsHonest;
    hide AllTrue, Launching.KnownNotes;
    Workers.StepKeepsInv(s, a);
    StepKeepsBalance(s, a);
    StepKeepsSalts(s, a);
    StepKeepsNotesDiffer(s, a);
    StepKeepsAnsweredOnce(s, a);
    StepKeepsUnreplied(s, a);
  }

  lemma {:induction false} InitInv()
    ensures Inv(INIT)
  {
    Workers.InitInv();
  }

  lemma {:induction false} RunKeepsInv(s: State, steps: seq<Step>)
    requires Inv(s) && IsRun(FAIR, s, steps)
    ensures Inv(After(FAIR, s, steps))
    decreases |steps|
  {
    hide Apply, Inv, Enabled, KeepsHonest;
    if steps != [] {
      StepKeepsInv(s, steps[0]);
      RunKeepsInv(Apply(s, steps[0]), steps[1..]);
    }
  }

  lemma {:induction false} ReachableInv(s: State)
    requires Reachable(FAIR, s)
    ensures Inv(s)
  {
    hide Inv, IsRun, After;
    var steps :| IsRun(FAIR, INIT, steps) && s == After(FAIR, INIT, steps);
    InitInv();
    RunKeepsInv(INIT, steps);
  }

  /** Every connection has exactly one of: an outstanding read, an unanswered trigger, or its end. So there
      are never two reads or two unanswered triggers on a connection, and its replies answer its own
      triggers in the order in which it sent them. */
  lemma {:induction false} OneTokenEach(s: State, c: Conn)
    requires Reachable(FAIR, s) && c in s.clients
    ensures Replied(s.clients[c].written) <= JobsOf(s.jobs, c)
    ensures var unanswered := |JobsOf(s.jobs, c)| - |Replied(s.clients[c].written)|;
            Reads(s.ops, c) + unanswered + (if s.clients[c].ended then 1 else 0) == 1
    ensures forall i, k :: 0 <= i < k < |s.ops| && s.ops[i].c == c ==> s.ops[k].c != c
  {
    ReachableInv(s);
    hide Reachable, Workers.Inv, SaltsDiffer, NotesDiffer, AnsweredOnce, UnrepliedInFlight;
    assert Balanced(s, c);
    forall i, k | 0 <= i < k < |s.ops| && s.ops[i].c == c
      ensures s.ops[k].c != c
    {
      if s.ops[k].c == c {
        ReadsTwice(s.ops, i, k);
      }
    }
  }
}
