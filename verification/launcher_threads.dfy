/** The launcher of launcher.hpp under all interleavings.

    Fine-grained: io threads have program counters, and every operation on the job queue, the job map,
    the worker set, a validity flag or a worker socket is one step.
 */
module LauncherThreads {
  import opened KeyHash

  type Thread = nat
  type JobId = nat
  /** A worker's place in the iteration order of the set, which it keeps from its insertion on. */
  type WorkerId = nat

  /** `again`: the handler of a registration calls start_jobs a second time. */
  datatype Pc =
    | Idle
    | Pushing(j: JobId)                                  // start_trigger_post, before the push
    | Mapping(j: JobId)                                  // pushed, before the emplace
    | Popping(again: bool)                               // start_jobs, before try_pop
    | Scanning(j: JobId, from: WorkerId, again: bool)    // get_available_worker, before it moves on
    | Testing(j: JobId, w: WorkerId, again: bool)        // before it reads the flag of a worker
    | Sending(j: JobId, w: WorkerId, again: bool)        // found a valid worker, before start_post
    | PushingBack(j: JobId, again: bool)                 // found none, before the push
    | Waking(again: bool)                                // before create_worker

  /** The header key of a job, and the thread that submits it. */
  datatype Job = Job(key: TopicKey, maker: Thread)

  datatype Dispatch = Dispatch(j: JobId, w: WorkerId)

  datatype State = State(
    threads: map<Thread, Pc>,
    queue: seq<JobId>,
    mapped: map<TopicKey, JobId>,
    workers: map<WorkerId, bool>,
    armed: multiset<JobId>,
    jobs: map<JobId, Job>,
    // History of the run.
    dispatched: seq<Dispatch>,
    repushed: seq<JobId>,
    woken: bool)

  datatype Step =
    | Submit(t: Thread, j: JobId, key: TopicKey)
    | Push(t: Thread)
    | Map(t: Thread)
    | AddWorker(t: Thread, w: WorkerId)
    | TryPop(t: Thread)
    | Advance(t: Thread, w: WorkerId)
    | ScanEnd(t: Thread)
    | Test(t: Thread)
    | Send(t: Thread)
    | PushBack(t: Thread)
    | Wake(t: Thread)
    | Invalidate(w: WorkerId)
    | TimerError(j: JobId)

  function Init(threads: set<Thread>): State {
    State(map t | t in threads :: Idle, [], map[], map[], multiset{}, map[], [], [], false)
  }

  function At(s: State, t: Thread): Pc {
    if t in s.threads then s.threads[t] else Idle
  }

  predicate IsValid(s: State, w: WorkerId) {
    w in s.workers && s.workers[w]
  }

  ghost predicate SomeValid(s: State) {
    exists w :: w in s.workers && s.workers[w]
  }

  /** The first worker from a place on. */
  predicate IsNext(workers: map<WorkerId, bool>, from: WorkerId, w: WorkerId) {
    w in workers && from <= w && forall v :: v in workers && from <= v ==> w <= v
  }

  predicate Enabled(s: State, a: Step) {
    match a
    case Submit(t, j, key) => t in s.threads && s.threads[t].Idle? && j !in s.jobs
    case Push(t) => At(s, t).Pushing?
    case Map(t) => At(s, t).Mapping? && At(s, t).j in s.jobs
    case AddWorker(t, w) => t in s.threads && s.threads[t].Idle? && w !in s.workers
    case TryPop(t) => At(s, t).Popping?
    case Advance(t, w) => At(s, t).Scanning? && IsNext(s.workers, At(s, t).from, w)
    case ScanEnd(t) => At(s, t).Scanning? && forall v :: v in s.workers ==> v < At(s, t).from
    case Test(t) => At(s, t).Testing?
    case Send(t) => At(s, t).Sending?
    case PushBack(t) => At(s, t).PushingBack?
    case Wake(t) => At(s, t).Waking?
    case Invalidate(w) => w in s.workers
    case TimerError(j) => j in s.armed
  }

  function Goto(s: State, t: Thread, pc: Pc): State {
    s.(threads := s.threads[t := pc])
  }

  /** Where a thread goes after a call of start_jobs. */
  function Return(again: bool): Pc {
    if again then Popping(false) else Idle
  }

  function Apply(s: State, a: Step): State
    requires Enabled(s, a)
  {
    match a
    case Submit(t, j, key) => Goto(s, t, Pushing(j)).(jobs := s.jobs[j := Job(key, t)])
    case Push(t) => Goto(s, t, Mapping(At(s, t).j)).(queue := s.queue + [At(s, t).j])
    case Map(t) =>
      var j := At(s, t).j;
      var key := s.jobs[j].key;
      Goto(s, t, Popping(false)).(mapped := if key in s.mapped then s.mapped else s.mapped[key := j])
    case AddWorker(t, w) => Goto(s, t, Popping(true)).(workers := s.workers[w := true])
    case TryPop(t) =>
      if s.queue == [] then Goto(s, t, Return(At(s, t).again)).(woken := false)
      else Goto(s, t, Scanning(s.queue[0], 0, At(s, t).again)).(queue := s.queue[1..])
    case Advance(t, w) => Goto(s, t, Testing(At(s, t).j, w, At(s, t).again))
    case ScanEnd(t) => Goto(s, t, PushingBack(At(s, t).j, At(s, t).again))
    case Test(t) =>
      var Testing(j, w, again) := At(s, t);
      Goto(s, t, if IsValid(s, w) then Sending(j, w, again) else Scanning(j, w + 1, again))
    case Send(t) =>
      var Sending(j, w, again) := At(s, t);
      Goto(s, t, Popping(again)).(dispatched := s.dispatched + [Dispatch(j, w)], armed := s.armed + multiset{j})
    case PushBack(t) => Goto(s, t, Waking(At(s, t).again)).(queue := s.queue + [At(s, t).j])
    case Wake(t) => Goto(s, t, Return(At(s, t).again)).(woken := true)
    case Invalidate(w) => s.(workers := s.workers[w := false])
    case TimerError(j) =>
      s.(queue := s.queue + [j], repushed := s.repushed + [j], armed := s.armed - multiset{j})
  }

  // Runs under stated assumptions ---------------------------------------------------------------------

  /** What a theorem assumes of the environment. */
  datatype Assumptions = Assumptions(
    freshKeys: bool,       // gen never draws a salt that an earlier job has
    noTimerErrors: bool)   // async_wait fails with operation_aborted at most

  ghost predicate Allowed(asm: Assumptions, s: State, a: Step) {
    && Enabled(s, a)
    && (asm.freshKeys && a.Submit? ==> forall j :: j in s.jobs ==> s.jobs[j].key != a.key)
    && (asm.noTimerErrors ==> !a.TimerError?)
  }

  ghost predicate IsRun(asm: Assumptions, s: State, steps: seq<Step>)
    decreases |steps|
  {
    steps == [] || (Allowed(asm, s, steps[0]) && IsRun(asm, Apply(s, steps[0]), steps[1..]))
  }

  ghost function After(asm: Assumptions, s: State, steps: seq<Step>): State
    requires IsRun(asm, s, steps)
    decreases |steps|
  {
    if steps == [] then s else After(asm, Apply(s, steps[0]), steps[1..])
  }

  ghost predicate Reachable(asm: Assumptions, s: State) {
    exists threads, steps :: IsRun(asm, Init(threads), steps) && s == After(asm, Init(threads), steps)
  }

  lemma {:induction false} Extend(asm: Assumptions, s: State, steps: seq<Step>, a: Step)
    requires IsRun(asm, s, steps) && Allowed(asm, After(asm, s, steps), a)
    ensures IsRun(asm, s, steps + [a])
    ensures After(asm, s, steps + [a]) == Apply(After(asm, s, steps), a)
    decreases |steps|
  {
    if steps == [] {
      assert steps + [a] == [a] && [a][1..] == [];
    } else {
      Extend(asm, Apply(s, steps[0]), steps[1..], a);
      assert (steps + [a])[0] == steps[0] && (steps + [a])[1..] == steps[1..] + [a];
    }
  }

  lemma {:induction false} Start(asm: Assumptions, threads: set<Thread>) returns (s: State)
    ensures s == Init(threads) && Reachable(asm, s)
  {
    s := Init(threads);
    assert IsRun(asm, s, []) && s == After(asm, s, []);
  }

  lemma {:induction false} Do(asm: Assumptions, s: State, a: Step) returns (u: State)
    requires Reachable(asm, s) && Allowed(asm, s, a)
    ensures u == Apply(s, a) && Reachable(asm, u)
  {
    var threads, steps :| IsRun(asm, Init(threads), steps) && s == After(asm, Init(threads), steps);
    Extend(asm, Init(threads), steps, a);
    u := Apply(s, a);
  }

  // Where a job can be ---------------------------------------------------------------------------------

  predicate Holds(pc: Pc, j: JobId) {
    (pc.Scanning? || pc.Testing? || pc.Sending? || pc.PushingBack?) && pc.j == j
  }

  /** The threads that have a popped job in hand. */
  ghost function Holders(threads: map<Thread, Pc>, j: JobId): set<Thread> {
    set t | t in threads && Holds(threads[t], j)
  }

  lemma {:induction false} Without<T>(s: set<T>, x: T)
    ensures |s| == |s - {x}| + if x in s then 1 else 0
  {
    if x in s {
      assert s == (s - {x}) + {x};
    } else {
      assert s == s - {x};
    }
  }

  lemma {:induction false} OthersHold(threads: map<Thread, Pc>, t: Thread, pc: Pc, j: JobId)
    requires t in threads
    ensures Holders(threads, j) - {t} == Holders(threads[t := pc], j) - {t}
  {
  }

  lemma {:induction false} HoldersMove(threads: map<Thread, Pc>, t: Thread, pc: Pc, j: JobId)
    requires t in threads
    ensures |Holders(threads[t := pc], j)| ==
            |Holders(threads, j)| - (if Holds(threads[t], j) then 1 else 0) + (if Holds(pc, j) then 1 else 0)
  {
    var h, g := Holders(threads, j), Holders(threads[t := pc], j);
    OthersHold(threads, t, pc, j);
    Without(h, t);
    Without(g, t);
  }

  /** How often a job was posted to a worker. */
  ghost function Times(ds: seq<Dispatch>, j: JobId): nat {
    if ds == [] then 0 else (if ds[0].j == j then 1 else 0) + Times(ds[1..], j)
  }

  lemma {:induction false} TimesAppend(ds: seq<Dispatch>, d: Dispatch, j: JobId)
    ensures Times(ds + [d], j) == Times(ds, j) + if d.j == j then 1 else 0
  {
    if ds == [] {
      assert ds + [d] == [d] && [d][1..] == [];
    } else {
      TimesAppend(ds[1..], d, j);
      assert (ds + [d])[1..] == ds[1..] + [d];
    }
  }

  /** Two posts of one job count twice. */
  lemma {:induction false} TimesAt(ds: seq<Dispatch>, i: nat, k: nat)
    requires i <= k < |ds| && ds[i].j == ds[k].j
    ensures Times(ds, ds[i].j) >= if i == k then 1 else 2
  {
    if i > 0 {
      TimesAt(ds[1..], i - 1, k - 1);
    } else if k > 0 {
      TimesAt(ds[1..], k - 1, k - 1);
    }
  }

  /** In the queue, in hand, or sent. */
  ghost function Places(s: State, j: JobId): nat {
    multiset(s.queue)[j] + |Holders(s.threads, j)| + Times(s.dispatched, j)
  }

  predicate Pushed(s: State, j: JobId) {
    j in s.jobs && At(s, s.jobs[j].maker) != Pushing(j)
  }

  /** How often a job entered the queue, not counting the times it was pushed back. */
  ghost function Pushes(s: State, j: JobId): nat {
    (if Pushed(s, j) then 1 else 0) + multiset(s.repushed)[j]
  }

  ghost predicate ConservedAt(s: State, j: JobId) {
    Places(s, j) == Pushes(s, j)
  }
}
