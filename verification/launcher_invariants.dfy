/** What holds of the fine-grained launcher in every reachable state. */
module LauncherInvariants {
  import opened KeyHash
  import opened LauncherThreads

  // Conservation ---------------------------------------------------------------------------------------

  predicate PcKnown(jobs: map<JobId, Job>, t: Thread, pc: Pc) {
    match pc
    case Pushing(j) => j in jobs && jobs[j].maker == t
    case Mapping(j) => j in jobs && jobs[j].maker == t
    case Scanning(j, _, _) => j in jobs
    case Testing(j, _, _) => j in jobs
    case Sending(j, _, _) => j in jobs
    case PushingBack(j, _) => j in jobs
    case _ => true
  }

  /** Every job that a thread has was submitted, and a submission in progress is that of the thread that
      made the job. */
  ghost predicate KnownThreads(s: State) {
    forall t :: t in s.threads ==> PcKnown(s.jobs, t, s.threads[t])
  }

  ghost predicate KnownQueue(s: State) {
    && (forall j :: j in s.jobs ==> s.jobs[j].maker in s.threads)
    && (forall i :: 0 <= i < |s.queue| ==> s.queue[i] in s.jobs)
  }

  /** A timer belongs to a job that was sent, so its push is past. */
  ghost predicate KnownTimers(s: State) {
    forall j :: j in s.armed || j in s.repushed ==> Pushed(s, j)
  }

  ghost predicate Conserved(s: State) {
    forall j: JobId :: ConservedAt(s, j)
  }

  ghost predicate Known(s: State) {
    KnownThreads(s) && KnownQueue(s) && KnownTimers(s)
  }

  lemma {:induction false} MovedThreadKnown(s: State, a: Step, t: Thread)
    requires KnownThreads(s) && KnownQueue(s) && Enabled(s, a) && t in Apply(s, a).threads
    ensures PcKnown(Apply(s, a).jobs, t, Apply(s, a).threads[t])
  {
    assert t in s.threads && PcKnown(s.jobs, t, s.threads[t]);
    hide KnownThreads;
  }

  lemma {:induction false} StepKeepsKnownThreads(s: State, a: Step)
    requires Known(s) && Enabled(s, a)
    ensures KnownThreads(Apply(s, a))
  {
    hide Apply, Enabled, PcKnown;
    forall t | t in Apply(s, a).threads
      ensures PcKnown(Apply(s, a).jobs, t, Apply(s, a).threads[t])
    {
      MovedThreadKnown(s, a, t);
    }
  }

  lemma {:induction false} StepKeepsKnownQueue(s: State, a: Step)
    requires Known(s) && Enabled(s, a)
    ensures KnownQueue(Apply(s, a))
  {
  }

  lemma {:induction false} PushedStays(s: State, a: Step, j: JobId)
    requires Known(s) && Enabled(s, a) && Pushed(s, j)
    ensures Pushed(Apply(s, a), j)
  {
  }

  lemma {:induction false} HeldIsPushed(s: State, t: Thread)
    requires Known(s) && t in s.threads && s.threads[t].Sending? && ConservedAt(s, s.threads[t].j)
    ensures Pushed(s, s.threads[t].j)
  {
    var j := s.threads[t].j;
    assert t in Holders(s.threads, j);
    assert multiset(s.repushed)[j] > 0 ==> j in s.repushed;
  }

  lemma {:induction false} StepKeepsKnownTimers(s: State, a: Step)
    requires Known(s) && Conserved(s) && Enabled(s, a)
    ensures KnownTimers(Apply(s, a))
  {
    var u := Apply(s, a);
    forall j | j in u.armed || j in u.repushed
      ensures Pushed(u, j)
    {
      if a.Send? && j !in s.armed && j !in s.repushed {
        assert ConservedAt(s, s.threads[a.t].j);
        HeldIsPushed(s, a.t);
      }
      PushedStays(s, a, j);
    }
  }

  lemma {:induction false} SubmitConserves(s: State, t: Thread, made: JobId, key: TopicKey, j: JobId)
    requires Known(s) && ConservedAt(s, j) && Enabled(s, Submit(t, made, key))
    ensures ConservedAt(Apply(s, Submit(t, made, key)), j)
  {
    HoldersMove(s.threads, t, Pushing(made), j);
    assert j == made ==> !Pushed(s, j) && j !in s.repushed;
  }

  lemma {:induction false} PushConserves(s: State, t: Thread, j: JobId)
    requires Known(s) && ConservedAt(s, j) && Enabled(s, Push(t))
    ensures ConservedAt(Apply(s, Push(t)), j)
  {
    HoldersMove(s.threads, t, Mapping(s.threads[t].j), j);
  }

  lemma {:induction false} PopConserves(s: State, t: Thread, j: JobId)
    requires Known(s) && ConservedAt(s, j) && Enabled(s, TryPop(t)) && s.queue != []
    ensures ConservedAt(Apply(s, TryPop(t)), j)
  {
    HoldersMove(s.threads, t, Scanning(s.queue[0], 0, s.threads[t].again), j);
    assert s.queue == [s.queue[0]] + s.queue[1..];
  }

  lemma {:induction false} SendConserves(s: State, t: Thread, j: JobId)
    requires Known(s) && ConservedAt(s, j) && Enabled(s, Send(t))
    ensures ConservedAt(Apply(s, Send(t)), j)
  {
    HoldersMove(s.threads, t, Popping(s.threads[t].again), j);
    TimesAppend(s.dispatched, Dispatch(s.threads[t].j, s.threads[t].w), j);
  }

  lemma {:induction false} PushBackConserves(s: State, t: Thread, j: JobId)
    requires Known(s) && ConservedAt(s, j) && Enabled(s, PushBack(t))
    ensures ConservedAt(Apply(s, PushBack(t)), j)
  {
    HoldersMove(s.threads, t, Waking(s.threads[t].again), j);
  }

  predicate OnlyMoves(s: State, a: Step) {
    a.Map? || a.AddWorker? || a.Advance? || a.ScanEnd? || a.Test? || a.Wake? || (a.TryPop? && s.queue == [])
  }

  /** A step of thread `t` that changes neither its hand nor the queue and the logs. */
  lemma {:induction false} SameHands(s: State, u: State, t: Thread, j: JobId)
    requires ConservedAt(s, j) && t in s.threads && t in u.threads && u.threads == s.threads[t := u.threads[t]]
    requires Holds(u.threads[t], j) == Holds(s.threads[t], j) && Pushed(u, j) == Pushed(s, j)
    requires u.queue == s.queue && u.dispatched == s.dispatched && u.repushed == s.repushed
    ensures ConservedAt(u, j)
  {
    hide Holds, Pushed, Times, Holders;
    HoldersMove(s.threads, t, u.threads[t], j);
  }

  /** A job that a thread has pushed stays pushed. */
  lemma {:induction false} MoveGives(s: State, a: Step, j: JobId)
    requires Enabled(s, a) && OnlyMoves(s, a)
    ensures a.t in s.threads && a.t in Apply(s, a).threads
    ensures Apply(s, a).threads == s.threads[a.t := Apply(s, a).threads[a.t]]
    ensures Holds(Apply(s, a).threads[a.t], j) == Holds(s.threads[a.t], j) && Pushed(Apply(s, a), j) == Pushed(s, j)
    ensures Apply(s, a).queue == s.queue && Apply(s, a).dispatched == s.dispatched && Apply(s, a).repushed == s.repushed
  {
    hide IsNext;
  }

  lemma {:induction false} MoveConserves(s: State, a: Step, j: JobId)
    requires ConservedAt(s, j) && Enabled(s, a) && OnlyMoves(s, a)
    ensures ConservedAt(Apply(s, a), j)
  {
    MoveGives(s, a, j);
    var t := a.t;
    hide *;
    SameHands(s, Apply(s, a), t, j);
  }

  lemma {:induction false} StepConserves(s: State, a: Step, j: JobId)
    requires Known(s) && ConservedAt(s, j) && Enabled(s, a)
    ensures ConservedAt(Apply(s, a), j)
  {
    if OnlyMoves(s, a) {
      MoveConserves(s, a, j);
    } else if a.Submit? {
      SubmitConserves(s, a.t, a.j, a.key, j);
    } else if a.Push? {
      PushConserves(s, a.t, j);
    } else if a.TryPop? {
      PopConserves(s, a.t, j);
    } else if a.Send? {
      SendConserves(s, a.t, j);
    } else if a.PushBack? {
      PushBackConserves(s, a.t, j);
    }
  }

  // The job map ----------------------------------------------------------------------------------------

  /** The submitting thread of `j` has not passed the emplace yet. */
  predicate InSubmission(s: State, j: JobId) {
    j in s.jobs && (At(s, s.jobs[j].maker) == Pushing(j) || At(s, s.jobs[j].maker) == Mapping(j))
  }

  ghost predicate MapsJobs(s: State) {
    forall k :: k in s.mapped ==> s.mapped[k] in s.jobs && s.jobs[s.mapped[k]].key == k
  }

  ghost predicate DistinctKeys(s: State) {
    forall i, j :: i in s.jobs && j in s.jobs && s.jobs[i].key == s.jobs[j].key ==> i == j
  }

  ghost predicate MappedUnlessInSubmission(s: State) {
    forall j :: j in s.jobs ==>
      if InSubmission(s, j) then s.jobs[j].key !in s.mapped
      else s.jobs[j].key in s.mapped && s.mapped[s.jobs[j].key] == j
  }

  ghost predicate MapInv(s: State) {
    MapsJobs(s) && DistinctKeys(s) && MappedUnlessInSubmission(s)
  }

  // The map stays right when every job but the one concerned is in its submission as before.

  lemma {:induction false} SameJobsKeepMap(s: State, u: State)
    requires MapInv(s) && u.jobs == s.jobs && u.mapped == s.mapped
    requires forall i :: i in s.jobs ==> InSubmission(u, i) == InSubmission(s, i)
    ensures MapInv(u)
  {
    hide InSubmission;
  }

  lemma {:induction false} NewJobKeepsMap(s: State, u: State, j: JobId, job: Job)
    requires MapInv(s) && j !in s.jobs && u.jobs == s.jobs[j := job] && u.mapped == s.mapped
    requires forall i :: i in s.jobs ==> s.jobs[i].key != job.key
    requires InSubmission(u, j) && forall i :: i in s.jobs ==> InSubmission(u, i) == InSubmission(s, i)
    ensures MapInv(u)
  {
    hide InSubmission;
    assert job.key !in s.mapped;
  }

  lemma {:induction false} MappedJobKeepsMap(s: State, u: State, j: JobId)
    requires MapInv(s) && j in s.jobs && u.jobs == s.jobs && u.mapped == s.mapped[s.jobs[j].key := j]
    requires InSubmission(s, j) && !InSubmission(u, j)
    requires forall i :: i in s.jobs && i != j ==> InSubmission(u, i) == InSubmission(s, i)
    ensures MapInv(u)
  {
    hide InSubmission;
  }

  lemma {:induction false} SubmitKeepsMap(s: State, t: Thread, j: JobId, key: TopicKey)
    requires Known(s) && MapInv(s) && Enabled(s, Submit(t, j, key))
    requires forall i :: i in s.jobs ==> s.jobs[i].key != key
    ensures MapInv(Apply(s, Submit(t, j, key)))
  {
    hide MapInv, Known;
    var u := Apply(s, Submit(t, j, key));
    assert forall i :: i in s.jobs ==> InSubmission(u, i) == InSubmission(s, i);
    assert InSubmission(u, j);
    assert j !in s.jobs && u.jobs == s.jobs[j := Job(key, t)] && u.mapped == s.mapped;
    hide *;
    NewJobKeepsMap(s, u, j, Job(key, t));
  }

  lemma {:induction false} PushKeepsMap(s: State, t: Thread)
    requires Known(s) && MapInv(s) && Enabled(s, Push(t))
    ensures MapInv(Apply(s, Push(t)))
  {
    hide MapInv;
    var u := Apply(s, Push(t));
    assert forall i :: i in s.jobs ==> InSubmission(u, i) == InSubmission(s, i);
    assert u.jobs == s.jobs && u.mapped == s.mapped;
    hide *;
    SameJobsKeepMap(s, u);
  }

  lemma {:induction false} MapKeepsMap(s: State, t: Thread)
    requires Known(s) && MapInv(s) && Enabled(s, Map(t))
    ensures MapInv(Apply(s, Map(t)))
  {
    var u := Apply(s, Map(t));
    var j := s.threads[t].j;
    assert InSubmission(s, j) && s.jobs[j].key !in s.mapped;
    hide MapInv;
    assert forall i :: i in s.jobs && i != j ==> InSubmission(u, i) == InSubmission(s, i);
    assert !InSubmission(u, j);
    assert u.jobs == s.jobs && u.mapped == s.mapped[s.jobs[j].key := j];
    hide *;
    MappedJobKeepsMap(s, u, j);
  }

  /** At most thread `t` moves, and it is not submitting, before or after. */
  predicate Quiet(s: State, u: State, t: Thread) {
    && u.jobs == s.jobs && u.mapped == s.mapped
    && (u.threads == s.threads ||
        (t in s.threads && t in u.threads && u.threads == s.threads[t := u.threads[t]] &&
         !s.threads[t].Pushing? && !s.threads[t].Mapping? && !u.threads[t].Pushing? && !u.threads[t].Mapping?))
  }

  lemma {:induction false} OtherStepsAreQuiet(s: State, a: Step)
    requires Enabled(s, a) && !a.Submit? && !a.Push? && !a.Map?
    ensures Quiet(s, Apply(s, a), if a.Invalidate? || a.TimerError? then 0 else a.t)
  {
    var u := Apply(s, a);
    match a
    case AddWorker(t, w) => assert u.threads == s.threads[t := Popping(true)];
    case TryPop(t) => assert u.threads == s.threads[t := u.threads[t]];
    case Advance(t, w) => assert u.threads == s.threads[t := u.threads[t]];
    case ScanEnd(t) => assert u.threads == s.threads[t := u.threads[t]];
    case Test(t) => assert u.threads == s.threads[t := u.threads[t]];
    case Send(t) => assert u.threads == s.threads[t := Popping(s.threads[t].again)];
    case PushBack(t) => assert u.threads == s.threads[t := Waking(s.threads[t].again)];
    case Wake(t) => assert u.threads == s.threads[t := u.threads[t]];
    case Invalidate(_) =>
    case TimerError(_) =>
  }

  lemma {:induction false} QuietKeepsMap(s: State, u: State, t: Thread)
    requires MapInv(s) && Quiet(s, u, t)
    ensures MapInv(u)
  {
    assert forall i :: i in s.jobs ==> InSubmission(u, i) == InSubmission(s, i);
  }

  lemma {:induction false} StepKeepsMap(s: State, a: Step)
    requires Known(s) && MapInv(s) && Enabled(s, a)
    requires a.Submit? ==> forall i :: i in s.jobs ==> s.jobs[i].key != a.key
    ensures MapInv(Apply(s, a))
  {
    if a.Submit? {
      SubmitKeepsMap(s, a.t, a.j, a.key);
    } else if a.Push? {
      PushKeepsMap(s, a.t);
    } else if a.Map? {
      MapKeepsMap(s, a.t);
    } else {
      OtherStepsAreQuiet(s, a);
      QuietKeepsMap(s, Apply(s, a), if a.Invalidate? || a.TimerError? then 0 else a.t);
    }
  }

  // No stranded work -----------------------------------------------------------------------------------

  /** Between a push and the end of start_jobs, with the queue still to be looked at. */
  predicate Draining(pc: Pc) {
    pc.Mapping? || pc.Popping? || pc.Scanning? || pc.Testing? || pc.Sending? || pc.PushingBack? || (pc.Waking? && pc.again)
  }

  predicate InWindow(pc: Pc) {
    Draining(pc) || pc.Waking?
  }

  ghost predicate SomeDraining(s: State) {
    exists t :: t in s.threads && Draining(s.threads[t])
  }

  ghost predicate SomeInWindow(s: State) {
    exists t :: t in s.threads && InWindow(s.threads[t])
  }

  /** A job waits only while somebody will look at the queue, or a wakeup has gone out since the queue
      was last seen empty. */
  ghost predicate WatchedInv(s: State) {
    s.queue != [] ==> s.woken || SomeInWindow(s)
  }

  lemma {:induction false} StillThere(s: State, u: State, t: Thread, t0: Thread)
    requires t0 in s.threads && t0 != t && t in s.threads && t in u.threads
    requires u.threads == s.threads[t := u.threads[t]]
    ensures t0 in u.threads && u.threads[t0] == s.threads[t0]
  {
  }

  lemma {:induction false} StepKeepsWatched(s: State, a: Step)
    requires WatchedInv(s) && Enabled(s, a) && !a.TimerError?
    ensures WatchedInv(Apply(s, a))
  {
    var u := Apply(s, a);
    if u.queue != [] && !u.woken {
      if a.Invalidate? {
      } else if a.t in u.threads && InWindow(u.threads[a.t]) {
      } else {
        // The thread that moved left the window without a wakeup, or never was in it.
        assert u.queue == s.queue && !s.woken;
        var t0 :| t0 in s.threads && InWindow(s.threads[t0]);
        StillThere(s, u, a.t, t0);
      }
    }
  }

  // Stranded work ----------------------------------------------------------------------------------------

  /** A job waits beside a valid worker, and no thread is going to look at the queue. */
  ghost predicate Stranded(s: State) {
    s.queue != [] && SomeValid(s) && !SomeDraining(s)
  }

  ghost predicate OthersDraining(s: State, t: Thread) {
    exists v :: v in s.threads && v != t && Draining(s.threads[v])
  }

  /** The steps that strand a job: a thread that found no worker pushes it back beside a worker that has
      become valid, owes no further call, and is the last one draining; or a timer error pushes it while
      nobody drains. */
  ghost predicate Strands(s: State, a: Step) {
    SomeValid(s) &&
    ((a.PushBack? && At(s, a.t).PushingBack? && !At(s, a.t).again && !OthersDraining(s, a.t)) ||
     (a.TimerError? && !SomeDraining(s)))
  }

  /** The steps that end the stranding: a thread starts draining, or the last valid worker is lost. */
  ghost predicate Rescues(s: State, a: Step) {
    a.Push? || a.AddWorker? || (a.Invalidate? && forall w :: IsValid(s, w) ==> w == a.w)
  }

  /** What a step of a thread does to the set of draining threads. */
  lemma {:induction false} DrainingAfter(s: State, a: Step)
    requires Enabled(s, a) && !a.Invalidate? && !a.TimerError?
    ensures a.t in s.threads && a.t in Apply(s, a).threads
    ensures SomeDraining(Apply(s, a)) <==> OthersDraining(s, a.t) || Draining(Apply(s, a).threads[a.t])
    ensures SomeDraining(s) <==> OthersDraining(s, a.t) || Draining(s.threads[a.t])
  {
    var u := Apply(s, a);
    assert u.threads == s.threads[a.t := u.threads[a.t]];
    hide Apply, Enabled, Draining;
    if OthersDraining(s, a.t) {
      var v :| v in s.threads && v != a.t && Draining(s.threads[v]);
      assert v in u.threads && Draining(u.threads[v]);
    }
  }

  lemma {:induction false} ValidAfter(s: State, a: Step)
    requires Enabled(s, a)
    ensures a.AddWorker? ==> SomeValid(Apply(s, a))
    ensures a.Invalidate? ==> (SomeValid(Apply(s, a)) <==> exists w :: IsValid(s, w) && w != a.w)
    ensures !a.AddWorker? && !a.Invalidate? ==> Apply(s, a).workers == s.workers
  {
    var u := Apply(s, a);
    if a.AddWorker? {
      assert u.workers[a.w];
    } else if a.Invalidate? {
      forall w: WorkerId
        ensures w in u.workers && u.workers[w] <==> IsValid(s, w) && w != a.w
      {
      }
    }
  }

  /** From a state that is not stranded, exactly the steps of `Strands` lead to one that is; from one that
      is, exactly the steps of `Rescues` lead out. */
  lemma {:induction false} StrandingStep(s: State, a: Step)
    requires Enabled(s, a)
    ensures !Stranded(s) ==> (Stranded(Apply(s, a)) <==> Strands(s, a))
    ensures Stranded(s) ==> (Stranded(Apply(s, a)) <==> !Rescues(s, a))
  {
    ValidAfter(s, a);
    var u := Apply(s, a);
    if a.Invalidate? {
      assert u.queue == s.queue && u.threads == s.threads;
      assert SomeDraining(u) <==> SomeDraining(s);
      hide *;
      LosingAWorker(s, u, a);
    } else if a.TimerError? {
      assert u.queue != [] && u.threads == s.threads && u.workers == s.workers;
    } else {
      DrainingAfter(s, a);
      ThreadStrands(s, a);
    }
  }

  lemma {:induction false} LosingAWorker(s: State, u: State, a: Step)
    requires a.Invalidate? && u.queue == s.queue && (SomeDraining(u) <==> SomeDraining(s))
    requires SomeValid(u) <==> exists w :: IsValid(s, w) && w != a.w
    ensures !Stranded(s) ==> (Stranded(u) <==> Strands(s, a))
    ensures Stranded(s) ==> (Stranded(u) <==> !Rescues(s, a))
  {
    hide SomeDraining;
    if w :| IsValid(s, w) && w != a.w {
      assert SomeValid(s);
    }
  }

  lemma {:induction false} ThreadStrands(s: State, a: Step)
    requires Enabled(s, a) && !a.Invalidate? && !a.TimerError?
    ensures !Stranded(s) ==> (Stranded(Apply(s, a)) <==> Strands(s, a))
    ensures Stranded(s) ==> (Stranded(Apply(s, a)) <==> !Rescues(s, a))
  {
    DrainingAfter(s, a);
    ValidAfter(s, a);
    hide SomeDraining, OthersDraining, IsNext;
    var u := Apply(s, a);
    assert u.workers == s.workers ==> (SomeValid(u) <==> SomeValid(s));
    hide SomeValid;
  }

  // All of it, over runs ---------------------------------------------------------------------------------

  ghost predicate Inv(asm: Assumptions, s: State) {
    && Known(s)
    && Conserved(s)
    && (asm.freshKeys ==> MapInv(s))
    && (asm.noTimerErrors ==> s.repushed == [] && WatchedInv(s))
  }

  lemma {:induction false} StepKeepsConserved(s: State, a: Step)
    requires Known(s) && Conserved(s) && Enabled(s, a)
    ensures Conserved(Apply(s, a))
  {
    forall j: JobId
      ensures ConservedAt(Apply(s, a), j)
    {
      assert ConservedAt(s, j);
      StepConserves(s, a, j);
    }
  }

  lemma {:induction false} StepKeepsInv(asm: Assumptions, s: State, a: Step)
    requires Inv(asm, s) && Allowed(asm, s, a)
    ensures Inv(asm, Apply(s, a))
  {
    StepKeepsKnownThreads(s, a);
    StepKeepsKnownQueue(s, a);
    StepKeepsKnownTimers(s, a);
    StepKeepsConserved(s, a);
    if asm.freshKeys {
      StepKeepsMap(s, a);
    }
    if asm.noTimerErrors {
      StepKeepsWatched(s, a);
    }
  }

  lemma {:induction false} RunKeepsInv(asm: Assumptions, s: State, steps: seq<Step>)
    requires Inv(asm, s) && IsRun(asm, s, steps)
    ensures Inv(asm, After(asm, s, steps))
    decreases |steps|
  {
    if steps != [] {
      StepKeepsInv(asm, s, steps[0]);
      RunKeepsInv(asm, Apply(s, steps[0]), steps[1..]);
    }
  }

  lemma {:induction false} InitInv(asm: Assumptions, threads: set<Thread>)
    ensures Inv(asm, Init(threads))
  {
    var s := Init(threads);
    forall j: JobId
      ensures ConservedAt(s, j)
    {
      assert Holders(s.threads, j) == {};
    }
  }

  lemma {:induction false} ReachableInv(asm: Assumptions, s: State)
    requires Reachable(asm, s)
    ensures Inv(asm, s)
  {
    var threads, steps :| IsRun(asm, Init(threads), steps) && s == After(asm, Init(threads), steps);
    InitInv(asm, threads);
    RunKeepsInv(asm, Init(threads), steps);
  }

  // Theorems ---------------------------------------------------------------------------------------------

  /** No job is lost or made up, in any interleaving: what was pushed, once by its submission and once a
      timer error, is in the queue, in a thread's hand, or sent. */
  lemma {:induction false} JobConservation(asm: Assumptions, s: State, j: JobId)
    requires Reachable(asm, s)
    ensures multiset(s.queue)[j] + |Holders(s.threads, j)| + Times(s.dispatched, j)
            == (if Pushed(s, j) then 1 else 0) + multiset(s.repushed)[j]
  {
    ReachableInv(asm, s);
    assert ConservedAt(s, j);
  }

  /** Without timer errors a job is sent at most once, and to one worker. */
  lemma {:induction false} SentAtMostOnce(asm: Assumptions, s: State, i: nat, k: nat)
    requires Reachable(asm, s) && asm.noTimerErrors
    requires i <= k < |s.dispatched| && s.dispatched[i].j == s.dispatched[k].j
    ensures i == k
    ensures s.dispatched[i].j !in s.queue && Holders(s.threads, s.dispatched[i].j) == {}
  {
    ReachableInv(asm, s);
    JobConservation(asm, s, s.dispatched[i].j);
    TimesAt(s.dispatched, i, k);
  }

  /** With fresh salts, a job that is in the queue, in hand or sent is in the map under its own key,
      unless its submitting thread stands exactly between the push and the emplace. */
  lemma {:induction false} MappedBeforeUse(asm: Assumptions, s: State, j: JobId)
    requires Reachable(asm, s) && asm.freshKeys && Places(s, j) > 0
    ensures j in s.jobs
    ensures s.jobs[j].key in s.mapped <==> At(s, s.jobs[j].maker) != Mapping(j)
    ensures s.jobs[j].key in s.mapped ==> s.mapped[s.jobs[j].key] == j
  {
    ReachableInv(asm, s);
    MappedWhenSomewhere(asm, s, j);
  }

  lemma {:induction false} MappedWhenSomewhere(asm: Assumptions, s: State, j: JobId)
    requires Inv(asm, s) && asm.freshKeys && Places(s, j) > 0
    ensures j in s.jobs
    ensures s.jobs[j].key in s.mapped <==> At(s, s.jobs[j].maker) != Mapping(j)
    ensures s.jobs[j].key in s.mapped ==> s.mapped[s.jobs[j].key] == j
  {
    assert ConservedAt(s, j);
    assert multiset(s.repushed)[j] > 0 ==> j in s.repushed;
    assert Pushed(s, j);
    assert InSubmission(s, j) <==> At(s, s.jobs[j].maker) == Mapping(j);
  }

  /** The job that a step puts into the queue, and the one that it takes out into a thread's hand. */
  function Entering(s: State, a: Step): seq<JobId>
    requires Enabled(s, a)
  {
    if a.Push? || a.PushBack? then [At(s, a.t).j] else if a.TimerError? then [a.j] else []
  }

  function Leaving(s: State, a: Step): seq<JobId>
    requires Enabled(s, a)
  {
    if a.TryPop? && At(Apply(s, a), a.t).Scanning? then [At(Apply(s, a), a.t).j] else []
  }

  ghost function AllEntering(asm: Assumptions, s: State, steps: seq<Step>): seq<JobId>
    requires IsRun(asm, s, steps)
    decreases |steps|
  {
    if steps == [] then [] else Entering(s, steps[0]) + AllEntering(asm, Apply(s, steps[0]), steps[1..])
  }

  ghost function AllLeaving(asm: Assumptions, s: State, steps: seq<Step>): seq<JobId>
    requires IsRun(asm, s, steps)
    decreases |steps|
  {
    if steps == [] then [] else Leaving(s, steps[0]) + AllLeaving(asm, Apply(s, steps[0]), steps[1..])
  }

  lemma {:induction false} PopIsFifo(s: State, t: Thread)
    requires Enabled(s, TryPop(t))
    ensures s.queue == Leaving(s, TryPop(t)) + Apply(s, TryPop(t)).queue
  {
  }

  lemma {:induction false} StepIsFifo(s: State, a: Step)
    requires Enabled(s, a)
    ensures s.queue + Entering(s, a) == Leaving(s, a) + Apply(s, a).queue
  {
    if a.TryPop? {
      PopIsFifo(s, a.t);
      assert s.queue + [] == s.queue;
      hide Apply, Leaving;
    } else {
      hide IsNext;
      assert [] + Apply(s, a).queue == Apply(s, a).queue;
    }
  }

  /** First in, first out, over any run of all threads: what was queued and then entered is what left, in the same
      order, and then what is queued still. */
  lemma {:induction false} QueueIsFifo(asm: Assumptions, s: State, steps: seq<Step>)
    requires IsRun(asm, s, steps)
    ensures s.queue + AllEntering(asm, s, steps) == AllLeaving(asm, s, steps) + After(asm, s, steps).queue
    decreases |steps|
  {
    hide Apply, Enabled, Entering, Leaving;
    if steps != [] {
      var u := Apply(s, steps[0]);
      StepIsFifo(s, steps[0]);
      QueueIsFifo(asm, u, steps[1..]);
      var x, y, rest := Entering(s, steps[0]), Leaving(s, steps[0]), AllEntering(asm, u, steps[1..]);
      assert s.queue + (x + rest) == (s.queue + x) + rest == (y + u.queue) + rest == y + (u.queue + rest);
    }
  }

  /** With or without fresh salts: an entry of the map is made by the emplace of a job with that key, and never
      changes; so a key keeps the first job that passed its emplace. */
  lemma {:induction false} MapKeepsFirst(s: State, a: Step, key: TopicKey)
    requires Enabled(s, a)
    ensures key in s.mapped ==> key in Apply(s, a).mapped && Apply(s, a).mapped[key] == s.mapped[key]
    ensures key !in s.mapped ==>
      (key in Apply(s, a).mapped <==> a.Map? && s.jobs[At(s, a.t).j].key == key) &&
      (key in Apply(s, a).mapped ==> Apply(s, a).mapped[key] == At(s, a.t).j)
  {
  }

  /** No stranded work: a job waits in the queue only while some thread is between its push and the end
      of start_jobs, or a wakeup has been issued since the queue was last observed empty. */
  lemma {:induction false} NoStrandedWork(asm: Assumptions, s: State)
    requires Reachable(asm, s) && asm.noTimerErrors && s.queue != []
    ensures s.woken || SomeInWindow(s)
  {
    ReachableInv(asm, s);
  }

  /** The state after the first `i` steps. */
  ghost function Mid(asm: Assumptions, s: State, steps: seq<Step>, i: nat): State
    requires IsRun(asm, s, steps) && i <= |steps|
  {
    RunPrefix(asm, s, steps, i);
    After(asm, s, steps[..i])
  }

  lemma {:induction false} RunPrefix(asm: Assumptions, s: State, steps: seq<Step>, i: nat)
    requires IsRun(asm, s, steps) && i <= |steps|
    ensures IsRun(asm, s, steps[..i]) && steps[..|steps|] == steps
    ensures i < |steps| ==>
      Allowed(asm, After(asm, s, steps[..i]), steps[i]) && IsRun(asm, s, steps[..i + 1]) &&
      After(asm, s, steps[..i + 1]) == Apply(After(asm, s, steps[..i]), steps[i])
    decreases i
  {
    hide Apply, Enabled;
    if i == 0 {
      if steps != [] {
        assert steps[..1] == [steps[0]] && [steps[0]][1..] == [];
      }
    } else {
      RunPrefix(asm, Apply(s, steps[0]), steps[1..], i - 1);
      assert steps[..i][0] == steps[0] && steps[..i][1..] == steps[1..][..i - 1];
      if i < |steps| {
        assert steps[..i + 1][0] == steps[0] && steps[..i + 1][1..] == steps[1..][..i];
      }
    }
  }

  /** Step `i` of the run strands a job, and no later step ends that. */
  ghost predicate StrandedSince(asm: Assumptions, s: State, steps: seq<Step>, i: nat)
    requires IsRun(asm, s, steps)
  {
    && i < |steps| && Strands(Mid(asm, s, steps, i), steps[i])
    && forall k :: i < k < |steps| ==> !Rescues(Mid(asm, s, steps, k), steps[k])
  }

  lemma {:induction false} LastStep(asm: Assumptions, s: State, steps: seq<Step>, i: nat)
    requires IsRun(asm, s, steps) && i + 1 < |steps|
    ensures IsRun(asm, s, steps[..|steps| - 1])
    ensures Mid(asm, s, steps[..|steps| - 1], i) == Mid(asm, s, steps, i)
    ensures steps[..|steps| - 1][i] == steps[i]
  {
    hide IsRun, After;
    RunPrefix(asm, s, steps, |steps| - 1);
    assert steps[..|steps| - 1][..i] == steps[..i];
  }

  lemma {:induction false} StrandedBefore(asm: Assumptions, s: State, steps: seq<Step>, i: nat)
    requires IsRun(asm, s, steps) && i + 1 < |steps| && IsRun(asm, s, steps[..|steps| - 1])
    ensures var n := |steps| - 1;
            StrandedSince(asm, s, steps, i) <==>
            StrandedSince(asm, s, steps[..n], i) && !Rescues(Mid(asm, s, steps, n), steps[n])
  {
    hide IsRun, Mid, Strands, Rescues;
    var n := |steps| - 1;
    forall k | 0 <= k < n
      ensures Mid(asm, s, steps[..n], k) == Mid(asm, s, steps, k) && steps[..n][k] == steps[k]
    {
      LastStep(asm, s, steps, k);
    }
  }

  lemma {:induction false} LastStrands(asm: Assumptions, s: State, steps: seq<Step>)
    requires IsRun(asm, s, steps) && steps != [] && IsRun(asm, s, steps[..|steps| - 1])
    requires var n := |steps| - 1; var u := Mid(asm, s, steps, n); var v := After(asm, s, steps);
      && (Stranded(u) <==> exists i: nat :: StrandedSince(asm, s, steps[..n], i))
      && (!Stranded(u) ==> (Stranded(v) <==> Strands(u, steps[n])))
      && (Stranded(u) ==> (Stranded(v) <==> !Rescues(u, steps[n])))
      && !(Strands(u, steps[n]) && Rescues(u, steps[n]))
    ensures Stranded(After(asm, s, steps)) <==> exists i: nat :: StrandedSince(asm, s, steps, i)
  {
    hide Stranded, Strands, Rescues, IsRun, After, Mid;
    var n := |steps| - 1;
    var u, v := Mid(asm, s, steps, n), After(asm, s, steps);
    if Stranded(v) {
      if Stranded(u) {
        var i: nat :| StrandedSince(asm, s, steps[..n], i);
        StrandedBefore(asm, s, steps, i);
      } else {
        assert StrandedSince(asm, s, steps, n);
      }
    } else if i: nat :| StrandedSince(asm, s, steps, i) {
      if i < n {
        StrandedBefore(asm, s, steps, i);
      }
    }
  }

  lemma {:induction false} NotBoth(s: State, a: Step)
    ensures !(Strands(s, a) && Rescues(s, a))
  {
  }

  lemma {:induction false} StrandedFromIff(asm: Assumptions, s: State, steps: seq<Step>)
    requires IsRun(asm, s, steps) && !Stranded(s)
    ensures Stranded(After(asm, s, steps)) <==> exists i: nat :: StrandedSince(asm, s, steps, i)
    decreases |steps|
  {
    hide Stranded, Strands, Rescues, Apply, Enabled;
    if steps != [] {
      var n := |steps| - 1;
      RunPrefix(asm, s, steps, n);
      RunPrefix(asm, s, steps, n + 1);
      StrandedFromIff(asm, s, steps[..n]);
      StrandingStep(Mid(asm, s, steps, n), steps[n]);
      NotBoth(Mid(asm, s, steps, n), steps[n]);
      hide IsRun, After;
      LastStrands(asm, s, steps);
    }
  }

  /** In every run, timer errors included: a job waits beside a valid worker with nobody going to look at the
      queue if and only if some step stranded it there and no later step rescued it. */
  lemma {:induction false} StrandedIff(asm: Assumptions, threads: set<Thread>, steps: seq<Step>)
    requires IsRun(asm, Init(threads), steps)
    ensures Stranded(After(asm, Init(threads), steps)) <==> exists i: nat :: StrandedSince(asm, Init(threads), steps, i)
  {
    assert !Stranded(Init(threads));
    hide Init, Stranded;
    StrandedFromIff(asm, Init(threads), steps);
  }

  /** Each send arms the job's timer once, and each timer error uses one of them up. */
  ghost predicate ArmedAt(s: State, j: JobId) {
    Times(s.dispatched, j) == s.armed[j] + multiset(s.repushed)[j]
  }

  lemma {:induction false} SendArms(s: State, t: Thread, j: JobId)
    requires Enabled(s, Send(t)) && ArmedAt(s, j)
    ensures ArmedAt(Apply(s, Send(t)), j)
  {
    TimesAppend(s.dispatched, Dispatch(s.threads[t].j, s.threads[t].w), j);
    hide Times;
  }

  lemma {:induction false} StepKeepsArmed(s: State, a: Step, j: JobId)
    requires Enabled(s, a) && ArmedAt(s, j)
    ensures ArmedAt(Apply(s, a), j)
  {
    if a.Send? {
      SendArms(s, a.t, j);
      hide Apply;
    } else {
      hide IsNext, Times;
    }
  }

  /** In every run the timer errors of a job, past and still possible, are as many as its sends. */
  lemma {:induction false} TimersOncePerSend(asm: Assumptions, s: State, steps: seq<Step>, j: JobId)
    requires IsRun(asm, s, steps) && ArmedAt(s, j)
    ensures ArmedAt(After(asm, s, steps), j)
    decreases |steps|
  {
    hide Apply, Enabled, ArmedAt;
    if steps != [] {
      StepKeepsArmed(s, steps[0], j);
      TimersOncePerSend(asm, Apply(s, steps[0]), steps[1..], j);
    }
  }

  lemma {:induction false} LeastFrom(workers: map<WorkerId, bool>, from: WorkerId, v: WorkerId) returns (w: WorkerId)
    requires v in workers && from <= v
    ensures IsNext(workers, from, w)
    decreases v - from
  {
    if from in workers {
      w := from;
    } else {
      w := LeastFrom(workers, from + 1, v);
    }
  }

  /** No thread gets stuck: in every reachable state each of them has a step of its own, allowed under every
      assumption once its job was made. */
  lemma {:induction false} NoThreadStuck(asm: Assumptions, s: State, t: Thread) returns (a: Step)
    requires Reachable(asm, s) && t in s.threads && !s.threads[t].Idle?
    ensures Allowed(asm, s, a) && !a.Invalidate? && !a.TimerError? && a.t == t
  {
    ReachableInv(asm, s);
    hide Reachable;
    assert PcKnown(s.jobs, t, s.threads[t]);
    hide Inv;
    match s.threads[t]
    case Pushing(_) => a := Push(t);
    case Mapping(_) => a := Map(t);
    case Popping(_) => a := TryPop(t);
    case Scanning(_, from, _) =>
      if v :| v in s.workers && from <= v {
        var w := LeastFrom(s.workers, from, v);
        a := Advance(t, w);
      } else {
        a := ScanEnd(t);
      }
    case Testing(_, _, _) => a := Test(t);
    case Sending(_, _, _) => a := Send(t);
    case PushingBack(_, _) => a := PushBack(t);
    case Waking(_) => a := Wake(t);
  }

  // What the assumptions do not rule out ---------------------------------------------------------------------

  const FRESH := Assumptions(true, true)

  lemma {:induction false} DoMake(s: State, t: Thread, j: JobId, key: TopicKey) returns (u: State)
    requires Reachable(FRESH, s) && Allowed(FRESH, s, Submit(t, j, key))
    ensures Reachable(FRESH, u)
    ensures u == s.(threads := s.threads[t := Pushing(j)], jobs := s.jobs[j := Job(key, t)])
  {
    u := Do(FRESH, s, Submit(t, j, key));
  }

  lemma {:induction false} DoPush(s: State, t: Thread, j: JobId) returns (u: State)
    requires Reachable(FRESH, s) && At(s, t) == Pushing(j)
    ensures Reachable(FRESH, u)
    ensures u == s.(threads := s.threads[t := Mapping(j)], queue := s.queue + [j])
  {
    u := Do(FRESH, s, Push(t));
  }

  lemma {:induction false} DoMap(s: State, t: Thread, j: JobId) returns (u: State)
    requires Reachable(FRESH, s) && At(s, t) == Mapping(j) && j in s.jobs && s.jobs[j].key !in s.mapped
    ensures Reachable(FRESH, u)
    ensures u == s.(threads := s.threads[t := Popping(false)], mapped := s.mapped[s.jobs[j].key := j])
  {
    u := Do(FRESH, s, Map(t));
  }

  /** A submission up to its start_jobs. */
  lemma {:induction false} DoSubmit(s: State, t: Thread, j: JobId, key: TopicKey) returns (u: State)
    requires Reachable(FRESH, s) && Allowed(FRESH, s, Submit(t, j, key)) && key !in s.mapped
    ensures Reachable(FRESH, u)
    ensures u.threads == s.threads[t := Popping(false)] && u.queue == s.queue + [j] && u.workers == s.workers
  {
    hide Reachable;
    var s1 := DoMake(s, t, j, key);
    var s2 := DoPush(s1, t, j);
    u := DoMap(s2, t, j);
    assert u.threads == s.threads[t := Popping(false)];
  }

  /** The only job is popped while there is no worker at all. */
  lemma {:induction false} PopsWithoutWorker(s: State, t: Thread, j: JobId) returns (u: State)
    requires Reachable(FRESH, s) && At(s, t) == Popping(false) && s.queue == [j] && s.workers == map[]
    ensures Reachable(FRESH, u)
    ensures u == s.(threads := s.threads[t := PushingBack(j, false)], queue := [])
  {
    hide Reachable;
    u := Do(FRESH, s, TryPop(t));
    assert u.threads[t] == Scanning(j, 0, false) && u.queue == [];
    u := Do(FRESH, u, ScanEnd(t));
    assert u.threads == s.threads[t := PushingBack(j, false)];
  }

  /** A worker registers while the queue is empty: its handler's first call of start_jobs finds nothing. */
  lemma {:induction false} RegistersOnce(s: State, t: Thread, w: WorkerId) returns (u: State)
    requires Reachable(FRESH, s) && Enabled(s, AddWorker(t, w)) && s.queue == []
    ensures Reachable(FRESH, u)
    ensures u == s.(threads := s.threads[t := Popping(false)], workers := s.workers[w := true], woken := false)
  {
    hide Reachable;
    u := Do(FRESH, s, AddWorker(t, w));
    u := Do(FRESH, u, TryPop(t));
    assert u.threads == s.threads[t := Popping(false)];
  }

  /** Neither does the second. */
  lemma {:induction false} RegistersForNothing(s: State, t: Thread, w: WorkerId) returns (u: State)
    requires Reachable(FRESH, s) && Enabled(s, AddWorker(t, w)) && s.queue == []
    ensures Reachable(FRESH, u)
    ensures u == s.(workers := s.workers[w := true], woken := false)
  {
    hide Reachable;
    u := RegistersOnce(s, t, w);
    u := Do(FRESH, u, TryPop(t));
    assert u.threads == s.threads;
  }

  /** A thread has popped the only job and found no worker. */
  lemma {:induction false} JobInHandNoWorker(key: TopicKey) returns (s: State)
    ensures Reachable(FRESH, s) && s.queue == [] && s.workers == map[]
    ensures s.threads == map[0 := PushingBack(0, false), 1 := Idle]
  {
    hide Reachable;
    var s0 := Start(FRESH, {0, 1});
    var s1 := DoSubmit(s0, 0, 0, key);
    assert s1.queue == [0];
    s := PopsWithoutWorker(s1, 0, 0);
    assert s.threads == map[0 := PushingBack(0, false), 1 := Idle];
  }

  lemma {:induction false} DoPushBack(s: State, t: Thread, j: JobId) returns (u: State)
    requires Reachable(FRESH, s) && At(s, t) == PushingBack(j, false)
    ensures Reachable(FRESH, u)
    ensures u == s.(threads := s.threads[t := Waking(false)], queue := s.queue + [j])
  {
    u := Do(FRESH, s, PushBack(t));
  }

  lemma {:induction false} DoWake(s: State, t: Thread) returns (u: State)
    requires Reachable(FRESH, s) && At(s, t) == Waking(false)
    ensures Reachable(FRESH, u)
    ensures u == s.(threads := s.threads[t := Idle], woken := true)
  {
    u := Do(FRESH, s, Wake(t));
  }

  /** It happens: a worker registers, and both its calls of start_jobs find the queue empty while another
      thread still holds the job that it pushes back afterwards. Everybody goes home, the job waits, and
      the worker is valid. */
  lemma {:induction false} JobStrandedBesideWorker(key: TopicKey) returns (s: State)
    ensures Reachable(FRESH, s) && s.queue == [0] && Stranded(s) && s.woken
    ensures forall t :: t in s.threads ==> s.threads[t].Idle?
  {
    hide Reachable;
    var s2 := JobInHandNoWorker(key);
    var s3 := RegistersForNothing(s2, 1, 0);
    var s4 := DoPushBack(s3, 0, 0);
    s := DoWake(s4, 0);
    assert s.threads == map[0 := Idle, 1 := Idle];
    assert s.queue == [0];
    assert 0 in s.workers && s.workers[0];
  }

  // A worker may be sent a job before it is mapped -----------------------------------------------------------

  lemma {:induction false} DoPopAndSend(s: State, t: Thread, j: JobId, w: WorkerId) returns (u: State)
    requires Reachable(FRESH, s) && At(s, t) == Popping(false) && s.queue == [j] && s.workers == map[w := true]
    ensures Reachable(FRESH, u)
    ensures u == s.(queue := [], dispatched := s.dispatched + [Dispatch(j, w)], armed := s.armed + multiset{j})
  {
    hide Reachable;
    u := Do(FRESH, s, TryPop(t));
    assert At(u, t) == Scanning(j, 0, false) && u.queue == [];
    u := Do(FRESH, u, Advance(t, w));
    assert At(u, t) == Testing(j, w, false);
    u := Do(FRESH, u, Test(t));
    assert At(u, t) == Sending(j, w, false);
    u := Do(FRESH, u, Send(t));
    assert u.threads == s.threads;
  }

  /** One worker, one job: its submitting thread has pushed it and not mapped it, and the thread that
      registered the worker has already sent it. */
  lemma {:induction false} SentBeforeMapped(key: TopicKey) returns (s: State)
    ensures Reachable(FRESH, s)
    ensures s.jobs == map[0 := Job(key, 0)] && s.mapped == map[] && s.dispatched == [Dispatch(0, 0)]
    ensures At(s, 0) == Mapping(0)
  {
    hide Reachable;
    var s0 := Start(FRESH, {0, 1});
    var s1 := RegistersOnce(s0, 1, 0);
    var s2 := DoMake(s1, 0, 0, key);
    var s3 := DoPush(s2, 0, 0);
    assert At(s3, 1) == Popping(false) && s3.queue == [0] && s3.workers == map[0 := true];
    s := DoPopAndSend(s3, 1, 0, 0);
  }

  /** The same with the job mapped as well. */
  lemma {:induction false} SentAndMapped(key: TopicKey) returns (s: State)
    ensures Reachable(FRESH, s)
    ensures s.jobs == map[0 := Job(key, 0)] && s.mapped == map[key := 0] && s.dispatched == [Dispatch(0, 0)]
  {
    hide Reachable;
    var s1 := SentBeforeMapped(key);
    s := DoMap(s1, 0, 0);
  }
}
