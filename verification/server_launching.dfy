/** The launcher inside the server, handler-atomic: no stranded work, conservation and the job map. These hold
    in every run, under no assumption on salts, workers, or the bytes that anyone sends.
 */
module ServerLaunching {
  import opened Wire
  import opened KeyHash
  import opened Framing
  import opened Server
  import Launcher

  // The queue --------------------------------------------------------------------------------------------

  ghost predicate NoStranded(s: State) {
    s.queue != [] ==> !SomeValid(s)
  }

  function Ids(n: nat): seq<JobId> {
    if n == 0 then [] else Ids(n - 1) + [n - 1]
  }

  lemma {:induction false} IdsOnce(n: nat, j: JobId)
    ensures multiset(Ids(n))[j] == if j < n then 1 else 0
  {
    if n > 0 {
      IdsOnce(n - 1, j);
    }
  }

  function PushedJobs(ps: seq<Push>): (js: seq<JobId>)
    ensures |js| == |ps| && forall i :: 0 <= i < |ps| ==> js[i] == ps[i].job
  {
    seq(|ps|, i requires 0 <= i < |ps| => ps[i].job)
  }

  lemma {:induction false} MorePushedJobs(ps: seq<Push>, w: nat, js: seq<JobId>)
    ensures PushedJobs(ps + PushAll(w, js)) == PushedJobs(ps) + js
  {
  }

  /** Every job waits or was pushed, exactly once in all. */
  ghost predicate Placed(s: State) {
    multiset(s.queue) + multiset(PushedJobs(s.pushes)) == multiset(Ids(|s.jobs|))
  }

  lemma {:induction false} DrainKeepsPlaced(s: State, choice: nat)
    requires Placed(s)
    ensures Placed(StartJobs(s, choice))
  {
    var d := Launcher.Drain(s.queue, IsValid(s, choice));
    Launcher.DrainConserves(s.queue, IsValid(s, choice));
    hide Launcher.Drain;
    MorePushedJobs(s.pushes, choice, d.batch);
  }

  lemma {:induction false} EnqueueKeepsPlaced(s: State, job: Job)
    requires Placed(s)
    ensures Placed(Enqueue(s, job))
  {
    var u := Enqueue(s, job);
    var n := |s.jobs|;
    assert u.queue == s.queue + [n] && |u.jobs| == n + 1 && u.pushes == s.pushes;
    assert Ids(n + 1) == Ids(n) + [n];
    hide Ids, Enqueue, PushedJobs;
    assert multiset(s.queue + [n]) == multiset(s.queue) + multiset([n]);
    assert multiset(Ids(n) + [n]) == multiset(Ids(n)) + multiset([n]);
  }

  lemma {:induction false} SubmitKeepsPlaced(s: State, job: Job, choice: nat)
    requires Placed(s)
    ensures Placed(Submit(s, job, choice))
  {
    EnqueueKeepsPlaced(s, job);
    hide Placed, Enqueue, StartJobs;
    DrainKeepsPlaced(Enqueue(s, job), choice);
  }

  lemma {:induction false} DrainServes(s: State, choice: nat)
    requires GoodChoice(s, choice)
    ensures NoStranded(StartJobs(s, choice))
  {
    Launcher.DrainConserves(s.queue, IsValid(s, choice));
  }

  /** A step leaves the launcher's own state alone. */
  predicate SameLauncher(s: State, u: State) {
    u.queue == s.queue && u.pushes == s.pushes && u.jobs == s.jobs && u.mapped == s.mapped
  }

  predicate IsLaunching(s: State, a: Step) {
    (a.HeaderDone? && RegistersWorker(s, a.i)) ||
    (a.BodyDone? && a.i < |s.ops| && s.ops[a.i].ReadBody? && s.ops[a.i].header.typ == TRIGGER)
  }

  lemma {:induction false} OtherStepsKeepLauncher(s: State, a: Step)
    requires Enabled(s, a) && !IsLaunching(s, a)
    ensures SameLauncher(s, Apply(s, a)) && |Apply(s, a).workers| == |s.workers|
  {
    hide ParseHeader, ReaderReply, Response, Posted, HearingLink;
  }

  /** No step of a worker or its reader makes an invalid worker valid. */
  lemma {:induction false} ValidityOnlyLost(s: State, a: Step, w: nat)
    requires Enabled(s, a) && !IsLaunching(s, a) && w < |s.workers|
    requires w < |Apply(s, a).workers| && Apply(s, a).workers[w].reader.valid
    ensures s.workers[w].reader.valid
  {
    if a.Hears? {
      hide ParseHeader, Posted;
    } else {
      hide ParseHeader, ReaderReply, Response, Posted, HearingLink;
    }
  }

  /** The state in which a worker registration runs start_jobs. */
  ghost function Registered(s: State, i: nat, noise: seq<Packet>): State
    requires RegistersWorker(s, i)
  {
    var c := s.ops[i].c;
    var k := s.clients[c];
    SetClient(s, c, k.(taken := k.taken + HEADER_SIZE,
                       handled := k.handled + [Packet(ParseHeader(Delivered(s, i)), [])],
                       ended := true, moved := true),
              Drop(s.ops, i))
    .(workers := s.workers + [NewWorker(s, i, noise)])
  }

  lemma {:induction false} RegistrationIsDrain(s: State, i: nat, choice: nat, noise: seq<Packet>)
    requires Enabled(s, HeaderDone(i, choice, noise)) && RegistersWorker(s, i)
    ensures Apply(s, HeaderDone(i, choice, noise)) == StartJobs(Registered(s, i, noise), choice)
    ensures GoodChoice(Registered(s, i, noise), choice)
  {
    assert Registered(s, i, noise).workers == s.workers + [NewWorker(s, i, noise)];
  }

  /** The state in which a trigger body submits its job. */
  ghost function BodyRead(s: State, i: nat): State
    requires CanComplete(s, i) && s.ops[i].ReadBody?
  {
    var ReadBody(c, h) := s.ops[i];
    var k := s.clients[c];
    SetClient(s, c, k.(taken := k.taken + h.datasize, handled := k.handled + [Packet(h, Delivered(s, i))]),
              Drop(s.ops, i))
  }

  lemma {:induction false} TriggerIsSubmit(s: State, i: nat, choice: nat, sequence: Quad, salt: Quad)
    requires Enabled(s, BodyDone(i, choice, sequence, salt)) && s.ops[i].header.typ == TRIGGER
    ensures Apply(s, BodyDone(i, choice, sequence, salt))
         == Submit(BodyRead(s, i), NewJob(s.ops[i].c, Delivered(s, i), sequence, salt), choice)
    ensures GoodChoice(BodyRead(s, i), choice)
  {
  }

  lemma {:induction false} StepKeepsPlaced(s: State, a: Step)
    requires Enabled(s, a) && Placed(s)
    ensures Placed(Apply(s, a))
  {
    if !IsLaunching(s, a) {
      OtherStepsKeepLauncher(s, a);
    } else if a.HeaderDone? {
      RegistrationIsDrain(s, a.i, a.choice, a.noise);
      DrainKeepsPlaced(Registered(s, a.i, a.noise), a.choice);
    } else if a.BodyDone? {
      TriggerIsSubmit(s, a.i, a.choice, a.sequence, a.salt);
      SubmitKeepsPlaced(BodyRead(s, a.i), NewJob(s.ops[a.i].c, Delivered(s, a.i), a.sequence, a.salt), a.choice);
    }
  }

  lemma {:induction false} SubmitServes(s: State, job: Job, choice: nat)
    requires GoodChoice(s, choice)
    ensures NoStranded(Submit(s, job, choice))
  {
    assert Enqueue(s, job).workers == s.workers;
    hide NoStranded, Enqueue, StartJobs;
    DrainServes(Enqueue(s, job), choice);
  }

  lemma {:induction false} StepKeepsNoStranded(s: State, a: Step)
    requires Enabled(s, a) && NoStranded(s)
    ensures NoStranded(Apply(s, a))
  {
    if !IsLaunching(s, a) {
      hide Apply, Enabled;
      OtherStepsKeepLauncher(s, a);
      var u := Apply(s, a);
      if SomeValid(u) {
        var w :| 0 <= w < |u.workers| && u.workers[w].reader.valid;
        ValidityOnlyLost(s, a, w);
      }
    } else if a.HeaderDone? {
      RegistrationIsDrain(s, a.i, a.choice, a.noise);
      DrainServes(Registered(s, a.i, a.noise), a.choice);
    } else {
      TriggerIsSubmit(s, a.i, a.choice, a.sequence, a.salt);
      SubmitServes(BodyRead(s, a.i), NewJob(s.ops[a.i].c, Delivered(s, a.i), a.sequence, a.salt), a.choice);
    }
  }

  /** While jobs wait, a worker has been woken since the queue was last empty. */
  ghost predicate Woken(s: State) {
    s.emptied <= s.wakeups && (s.queue != [] ==> s.emptied < s.wakeups)
  }

  lemma {:induction false} DrainWakes(s: State, choice: nat)
    requires s.emptied <= s.wakeups
    ensures Woken(StartJobs(s, choice))
  {
  }

  lemma {:induction false} OthersWakeNobody(s: State, a: Step)
    requires Enabled(s, a) && !IsLaunching(s, a)
    ensures Apply(s, a).wakeups == s.wakeups && Apply(s, a).emptied == s.emptied
  {
    hide ParseHeader, ReaderReply, Response, Posted, HearingLink, NewWorker, Launcher.Drain;
  }

  lemma {:induction false} StepKeepsWoken(s: State, a: Step)
    requires Enabled(s, a) && Woken(s)
    ensures Woken(Apply(s, a))
  {
    if !IsLaunching(s, a) {
      hide Apply, Enabled;
      OtherStepsKeepLauncher(s, a);
      OthersWakeNobody(s, a);
    } else if a.HeaderDone? {
      RegistrationIsDrain(s, a.i, a.choice, a.noise);
      DrainWakes(Registered(s, a.i, a.noise), a.choice);
    } else {
      TriggerIsSubmit(s, a.i, a.choice, a.sequence, a.salt);
      var job := NewJob(s.ops[a.i].c, Delivered(s, a.i), a.sequence, a.salt);
      DrainWakes(Enqueue(BodyRead(s, a.i), job), a.choice);
    }
  }

  // The job map --------------------------------------------------------------------------------------------

  /** The map sends a key to the first job that drew it. */
  ghost predicate FirstJobs(s: State) {
    && (forall j :: 0 <= j < |s.jobs| ==> KeyOfJob(s, j) in s.mapped && s.mapped[KeyOfJob(s, j)] <= j)
    && (forall k :: k in s.mapped ==> s.mapped[k] < |s.jobs| && KeyOfJob(s, s.mapped[k]) == k)
  }

  lemma {:induction false} SubmitKeepsFirst(s: State, job: Job, choice: nat)
    requires FirstJobs(s)
    ensures FirstJobs(Submit(s, job, choice))
  {
    var u := Submit(s, job, choice);
    var key, n := KeyOf(job.pack.header), |s.jobs|;
    assert u.jobs == s.jobs + [job] && u.mapped == if key in s.mapped then s.mapped else s.mapped[key := n];
    hide Submit;
    assert forall j :: 0 <= j < n ==> KeyOfJob(u, j) == KeyOfJob(s, j);
    assert KeyOfJob(u, n) == key;
    hide KeyOfJob;
    forall k | k in u.mapped
      ensures u.mapped[k] < |u.jobs| && KeyOfJob(u, u.mapped[k]) == k
    {
      assert k in s.mapped || k == key;
    }
  }

  lemma {:induction false} StepKeepsFirst(s: State, a: Step)
    requires Enabled(s, a) && FirstJobs(s)
    ensures FirstJobs(Apply(s, a))
  {
    var u := Apply(s, a);
    if a.BodyDone? && IsLaunching(s, a) {
      TriggerIsSubmit(s, a.i, a.choice, a.sequence, a.salt);
      assert FirstJobs(BodyRead(s, a.i)) by {
        assert forall j :: 0 <= j < |s.jobs| ==> KeyOfJob(BodyRead(s, a.i), j) == KeyOfJob(s, j);
      }
      SubmitKeepsFirst(BodyRead(s, a.i), NewJob(s.ops[a.i].c, Delivered(s, a.i), a.sequence, a.salt), a.choice);
    } else {
      SameJobs(s, a);
      assert forall j :: 0 <= j < |s.jobs| ==> KeyOfJob(u, j) == KeyOfJob(s, j);
    }
  }

  lemma {:induction false} SameJobs(s: State, a: Step)
    requires Enabled(s, a) && !(a.BodyDone? && IsLaunching(s, a))
    ensures Apply(s, a).jobs == s.jobs && Apply(s, a).mapped == s.mapped
  {
    if a.HeaderDone? && IsLaunching(s, a) {
      RegistrationIsDrain(s, a.i, a.choice, a.noise);
    } else {
      OtherStepsKeepLauncher(s, a);
    }
  }

  // What is known ------------------------------------------------------------------------------------------

  ghost predicate KnownConns(s: State) {
    && (forall i :: 0 <= i < |s.ops| ==> s.ops[i].c in s.clients)
    && (forall j :: 0 <= j < |s.jobs| ==> s.jobs[j].origin in s.clients)
    && (forall c :: c in s.clients && s.clients[c].moved ==> s.clients[c].ended)
    && (forall w :: 0 <= w < |s.workers| ==> s.workers[w].c in s.clients && s.clients[s.workers[w].c].moved)
  }

  ghost predicate KnownJobs(s: State) {
    && (forall i :: 0 <= i < |s.pushes| ==> s.pushes[i].job < |s.jobs| && s.pushes[i].w < |s.workers|)
    && (forall i :: 0 <= i < |s.queue| ==> s.queue[i] < |s.jobs|)
  }

  ghost predicate KnownNotes(s: State) {
    forall i :: 0 <= i < |s.inFlight| ==> NoteKnown(s, s.inFlight[i])
  }

  predicate WorkerGrows(k: WorkerLink, q: WorkerLink) {
    k.c == q.c && k.reader.handled <= q.reader.handled && k.said <= q.said && k.received <= q.received
  }

  /** Nothing is forgotten: jobs, pushes, answers and what workers said and their readers handled are only
      added to, and a mapped key keeps its job. */
  ghost predicate Grows(s: State, u: State) {
    && s.jobs <= u.jobs && s.pushes <= u.pushes && s.given <= u.given
    && (forall k :: k in s.mapped ==> k in u.mapped && u.mapped[k] == s.mapped[k])
    && s.clients.Keys <= u.clients.Keys
    && |s.workers| <= |u.workers| && forall w :: 0 <= w < |s.workers| ==> WorkerGrows(s.workers[w], u.workers[w])
  }

  lemma {:induction false} HeaderGrows(s: State, i: nat, choice: nat, noise: seq<Packet>)
    requires Enabled(s, HeaderDone(i, choice, noise))
    ensures Grows(s, OnHeader(s, i, choice, noise))
  {
    hide ParseHeader, Launcher.Drain, ReaderReply, NewWorker;
  }

  lemma {:induction false} BodyGrows(s: State, i: nat, choice: nat, sequence: Quad, salt: Quad)
    requires Enabled(s, BodyDone(i, choice, sequence, salt))
    ensures Grows(s, OnBody(s, i, choice, sequence, salt))
  {
    hide ParseHeader, Launcher.Drain;
  }

  lemma {:induction false} HearGrows(s: State, w: nat)
    requires Enabled(s, Hears(w))
    ensures Grows(s, OnHear(s, w))
  {
    hide ParseHeader, Posted;
    assert WorkerGrows(s.workers[w], HearingLink(s.workers[w]));
  }

  lemma {:induction false} StepGrows(s: State, a: Step)
    requires Enabled(s, a)
    ensures Grows(s, Apply(s, a))
  {
    if a.HeaderDone? {
      HeaderGrows(s, a.i, a.choice, a.noise);
    } else if a.BodyDone? {
      BodyGrows(s, a.i, a.choice, a.sequence, a.salt);
    } else if a.Hears? {
      HearGrows(s, a.w);
    }
    hide OnHeader, OnBody, OnHear, Response;
  }

  lemma {:induction false} HeaderKeepsConns(s: State, i: nat, choice: nat, noise: seq<Packet>)
    requires Enabled(s, HeaderDone(i, choice, noise)) && KnownConns(s)
    ensures KnownConns(OnHeader(s, i, choice, noise))
  {
    hide ParseHeader, Launcher.Drain, ReaderReply, NewWorker;
    assert forall k :: 0 <= k < |Drop(s.ops, i)| ==> Drop(s.ops, i)[k] == s.ops[if k < i then k else k + 1];
  }

  lemma {:induction false} BodyKeepsConns(s: State, i: nat, choice: nat, sequence: Quad, salt: Quad)
    requires Enabled(s, BodyDone(i, choice, sequence, salt)) && KnownConns(s)
    ensures KnownConns(OnBody(s, i, choice, sequence, salt))
  {
    hide ParseHeader, Launcher.Drain;
    assert forall k :: 0 <= k < |Drop(s.ops, i)| ==> Drop(s.ops, i)[k] == s.ops[if k < i then k else k + 1];
  }

  lemma {:induction false} StepKeepsConns(s: State, a: Step)
    requires Enabled(s, a) && KnownConns(s)
    ensures KnownConns(Apply(s, a))
  {
    if a.HeaderDone? {
      HeaderKeepsConns(s, a.i, a.choice, a.noise);
    } else if a.BodyDone? {
      BodyKeepsConns(s, a.i, a.choice, a.sequence, a.salt);
    }
    hide OnHeader, OnBody, OnHear, Response;
  }

  lemma {:induction false} DrainKeepsJobs(s: State, choice: nat)
    requires KnownJobs(s)
    ensures KnownJobs(StartJobs(s, choice))
  {
  }

  lemma {:induction false} SubmitKeepsJobs(s: State, job: Job, choice: nat)
    requires KnownJobs(s)
    ensures KnownJobs(Submit(s, job, choice))
  {
    DrainKeepsJobs(Enqueue(s, job), choice);
  }

  lemma {:induction false} StepKeepsJobs(s: State, a: Step)
    requires Enabled(s, a) && KnownJobs(s)
    ensures KnownJobs(Apply(s, a))
  {
    if !IsLaunching(s, a) {
      hide Apply, Enabled;
      OtherStepsKeepLauncher(s, a);
    } else if a.HeaderDone? {
      RegistrationIsDrain(s, a.i, a.choice, a.noise);
      DrainKeepsJobs(Registered(s, a.i, a.noise), a.choice);
    } else if a.BodyDone? {
      TriggerIsSubmit(s, a.i, a.choice, a.sequence, a.salt);
      SubmitKeepsJobs(BodyRead(s, a.i), NewJob(s.ops[a.i].c, Delivered(s, a.i), a.sequence, a.salt), a.choice);
    }
  }

  /** What a step does to the notes on their way. */
  lemma {:induction false} NotesGive(s: State, a: Step)
    requires Enabled(s, a)
    ensures a.Hears? ==>
      Apply(s, a).inFlight == s.inFlight + Posted(a.w, s.workers[a.w].reader, HearingLink(s.workers[a.w]).reader)
    ensures a.Hears? ==> Apply(s, a).workers == s.workers[a.w := HearingLink(s.workers[a.w])]
    ensures a.NoteHandled? ==> Apply(s, a).inFlight == Drop(s.inFlight, a.i)
    ensures !a.Hears? && !a.NoteHandled? ==> Apply(s, a).inFlight == s.inFlight
  {
    hide ParseHeader, Launcher.Drain, ReaderReply, NewWorker, Response, HearingLink, Posted;
  }

  lemma {:induction false} NoteStays(s: State, u: State, note: Note)
    requires Grows(s, u) && NoteKnown(s, note)
    ensures NoteKnown(u, note) && PacketOf(u, note) == PacketOf(s, note)
  {
    assert WorkerGrows(s.workers[note.w], u.workers[note.w]);
  }

  lemma {:induction false} StepKeepsNotes(s: State, a: Step)
    requires Enabled(s, a) && KnownNotes(s)
    ensures KnownNotes(Apply(s, a))
  {
    NotesGive(s, a);
    StepGrows(s, a);
    hide Apply, Grows, HearingLink;
    var u := Apply(s, a);
    forall i | 0 <= i < |u.inFlight|
      ensures NoteKnown(u, u.inFlight[i])
    {
      if a.Hears? && i == |s.inFlight| {
      } else {
        var k := if a.NoteHandled? && i >= a.i then i + 1 else i;
        assert u.inFlight[i] == s.inFlight[k];
        NoteStays(s, u, s.inFlight[k]);
      }
    }
  }

  // Every run ------------------------------------------------------------------------------------------------

  ghost predicate Inv(s: State) {
    NoStranded(s) && Woken(s) && Placed(s) && FirstJobs(s) && KnownConns(s) && KnownJobs(s) && KnownNotes(s)
  }

  lemma {:induction false} StepKeepsInv(s: State, a: Step)
    requires Inv(s) && Enabled(s, a)
    ensures Inv(Apply(s, a))
  {
    hide Apply, Enabled, NoStranded, Woken, Placed, FirstJobs, KnownConns, KnownJobs, KnownNotes;
    StepKeepsNoStranded(s, a);
    StepKeepsWoken(s, a);
    StepKeepsPlaced(s, a);
    StepKeepsFirst(s, a);
    StepKeepsConns(s, a);
    StepKeepsJobs(s, a);
    StepKeepsNotes(s, a);
  }

  lemma {:induction false} InitInv()
    ensures Inv(INIT)
  {
    assert Ids(0) == [];
    assert PushedJobs([]) == [];
    assert multiset(INIT.queue) + multiset(PushedJobs([])) == multiset(Ids(0));
  }

  lemma {:induction false} RunKeepsInv(asm: Assumptions, s: State, steps: seq<Step>)
    requires Inv(s) && IsRun(asm, s, steps)
    ensures Inv(After(asm, s, steps))
    decreases |steps|
  {
    hide Apply, Inv, Enabled;
    if steps != [] {
      assert Enabled(s, steps[0]);
      StepKeepsInv(s, steps[0]);
      RunKeepsInv(asm, Apply(s, steps[0]), steps[1..]);
    }
  }

  lemma {:induction false} ReachableInv(asm: Assumptions, s: State)
    requires Reachable(asm, s)
    ensures Inv(s)
  {
    hide Inv, IsRun, After;
    var steps :| IsRun(asm, INIT, steps) && s == After(asm, INIT, steps);
    InitInv();
    RunKeepsInv(asm, INIT, steps);
  }

  /** While a worker is valid no job waits; while jobs wait, a worker has been woken since none did; and every job
      waits or was pushed, exactly once in all. */
  lemma {:induction false} NoStrandedWork(asm: Assumptions, s: State)
    requires Reachable(asm, s)
    ensures s.queue != [] ==> forall w :: 0 <= w < |s.workers| ==> !s.workers[w].reader.valid
    ensures s.queue != [] ==> s.emptied < s.wakeups
    ensures forall j :: 0 <= j < |s.jobs| ==> multiset(s.queue)[j] + multiset(PushedJobs(s.pushes))[j] == 1
    ensures forall j :: j in s.queue || j in PushedJobs(s.pushes) ==> j < |s.jobs|
  {
    ReachableInv(asm, s);
    hide Reachable;
    forall j | 0 <= j < |s.jobs|
      ensures multiset(s.queue)[j] + multiset(PushedJobs(s.pushes))[j] == 1
    {
      IdsOnce(|s.jobs|, j);
      assert (multiset(s.queue) + multiset(PushedJobs(s.pushes)))[j] == multiset(Ids(|s.jobs|))[j];
    }
  }
}
