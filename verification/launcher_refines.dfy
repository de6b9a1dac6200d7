/** The two granularities of the launcher agree: a `start_jobs` that nobody interrupts, run through its
    fine-grained steps, does exactly what the handler-atomic `Launcher.Drain` says, whichever way it runs.
 */
module LauncherRefines {
  import opened LauncherThreads
  import Launcher

  // Runs of one thread alone -----------------------------------------------------------------------------

  /** A step that thread `t` takes inside start_jobs. */
  predicate InCall(a: Step, t: Thread) {
    (a.TryPop? || a.Advance? || a.ScanEnd? || a.Test? || a.Send? || a.PushBack? || a.Wake?) && a.t == t
  }

  ghost predicate Solo(asm: Assumptions, s: State, t: Thread, steps: seq<Step>) {
    IsRun(asm, s, steps) && forall i :: 0 <= i < |steps| ==> InCall(steps[i], t)
  }

  lemma {:induction false} SoloAppend(asm: Assumptions, s: State, t: Thread, a: seq<Step>, b: seq<Step>)
    requires Solo(asm, s, t, a) && Solo(asm, After(asm, s, a), t, b)
    ensures Solo(asm, s, t, a + b) && After(asm, s, a + b) == After(asm, After(asm, s, a), b)
    decreases |a|
  {
    hide Apply, Enabled;
    if a == [] {
      assert a + b == b;
    } else {
      SoloAppend(asm, Apply(s, a[0]), t, a[1..], b);
      assert (a + b)[0] == a[0] && (a + b)[1..] == a[1..] + b;
    }
  }

  lemma {:induction false} OneStep(asm: Assumptions, s: State, t: Thread, a: Step)
    requires Enabled(s, a) && InCall(a, t)
    ensures Solo(asm, s, t, [a]) && After(asm, s, [a]) == Apply(s, a)
  {
    hide Apply, Enabled;
    assert [a][1..] == [];
    assert IsRun(asm, Apply(s, a), []) && After(asm, Apply(s, a), []) == Apply(s, a);
  }

  lemma {:induction false} ThenStep(asm: Assumptions, s: State, t: Thread, steps: seq<Step>, a: Step)
    requires Solo(asm, s, t, steps) && Enabled(After(asm, s, steps), a) && InCall(a, t)
    ensures Solo(asm, s, t, steps + [a]) && After(asm, s, steps + [a]) == Apply(After(asm, s, steps), a)
  {
    hide Apply, Enabled, IsRun, After;
    OneStep(asm, After(asm, s, steps), t, a);
    SoloAppend(asm, s, t, steps, [a]);
  }

  /** The place of a thread inside start_jobs and the workers settle its next step. */
  lemma {:induction false} NextStepIsSettled(s: State, t: Thread, a: Step, b: Step)
    requires Enabled(s, a) && Enabled(s, b) && InCall(a, t) && InCall(b, t)
    ensures a == b && !At(s, t).Idle?
  {
    if a.Advance? && b.Advance? {
      assert a.w <= b.w && b.w <= a.w;
    }
  }

  /** Every run of the thread alone is the beginning of the one that brings it home. */
  lemma {:induction false} SoloRunIsSettled(asm: Assumptions, s: State, t: Thread, xs: seq<Step>, call: seq<Step>)
    requires Solo(asm, s, t, xs) && Solo(asm, s, t, call) && At(After(asm, s, call), t).Idle?
    ensures xs <= call
    ensures At(After(asm, s, xs), t).Idle? ==> xs == call
    decreases |xs|
  {
    hide Apply, Enabled, At, InCall;
    if xs != [] && call != [] {
      NextStepIsSettled(s, t, xs[0], call[0]);
      SoloRunIsSettled(asm, Apply(s, xs[0]), t, xs[1..], call[1..]);
    } else if xs != [] {
      NextStepIsSettled(s, t, xs[0], xs[0]);
    } else if call != [] {
      NextStepIsSettled(s, t, call[0], call[0]);
    }
  }

  // The scan ---------------------------------------------------------------------------------------------

  predicate IsFirstValid(workers: map<WorkerId, bool>, w: WorkerId) {
    w in workers && workers[w] && forall v :: v in workers && workers[v] ==> w <= v
  }

  /** The worker that get_available_worker finds, if one is valid. */
  ghost function Found(workers: map<WorkerId, bool>): WorkerId {
    if exists w: WorkerId :: IsFirstValid(workers, w) then
      var w: WorkerId :| IsFirstValid(workers, w);
      w
    else 0
  }

  lemma {:induction false} NextWorker(workers: map<WorkerId, bool>, from: WorkerId, v: WorkerId) returns (w: WorkerId)
    requires v in workers && from <= v
    ensures IsNext(workers, from, w)
    decreases v - from
  {
    if from in workers {
      w := from;
    } else {
      w := NextWorker(workers, from + 1, v);
    }
  }

  lemma {:induction false} FirstValid(workers: map<WorkerId, bool>, v: WorkerId)
    requires v in workers && workers[v]
    ensures IsFirstValid(workers, Found(workers))
  {
    var valid := map w | w in workers && workers[w] :: true;
    var w := NextWorker(valid, 0, v);
    assert forall u :: u in workers && workers[u] ==> u in valid;
    assert IsFirstValid(workers, w);
  }

  lemma {:induction false} BeyondAll(workers: map<WorkerId, bool>) returns (top: WorkerId)
    ensures forall v :: v in workers ==> v < top
    decreases |workers|
  {
    if workers == map[] {
      top := 0;
    } else {
      var w :| w in workers;
      var rest := BeyondAll(workers - {w});
      top := if rest > w then rest else w + 1;
      assert forall v :: v in workers ==> v == w || v in workers - {w};
    }
  }

  function Moved(s: State, t: Thread, pc: Pc): State {
    s.(threads := s.threads[t := pc])
  }

  lemma {:induction false} MovedTwice(s: State, t: Thread, a: Pc, b: Pc)
    ensures Moved(Moved(s, t, a), t, b) == Moved(s, t, b)
  {
  }

  /** Moving on to the next worker and reading its flag. */
  lemma {:induction false} LookAt(asm: Assumptions, s: State, t: Thread, j: JobId, from: WorkerId, again: bool, w: WorkerId)
    returns (steps: seq<Step>)
    requires At(s, t) == Scanning(j, from, again) && IsNext(s.workers, from, w)
    ensures Solo(asm, s, t, steps)
    ensures After(asm, s, steps) ==
      Moved(s, t, if IsValid(s, w) then Sending(j, w, again) else Scanning(j, w + 1, again))
  {
    hide IsRun, After;
    OneStep(asm, s, t, Advance(t, w));
    assert Apply(s, Advance(t, w)) == Moved(s, t, Testing(j, w, again));
    ThenStep(asm, s, t, [Advance(t, w)], Test(t));
    steps := [Advance(t, w)] + [Test(t)];
    MovedTwice(s, t, Testing(j, w, again), if IsValid(s, w) then Sending(j, w, again) else Scanning(j, w + 1, again));
  }

  /** A scan that finds the first valid worker. */
  lemma {:induction false} ScanToValid(asm: Assumptions, s: State, t: Thread, j: JobId, from: WorkerId, again: bool, w: WorkerId)
    returns (steps: seq<Step>)
    requires At(s, t) == Scanning(j, from, again) && IsFirstValid(s.workers, w) && from <= w
    ensures Solo(asm, s, t, steps) && After(asm, s, steps) == Moved(s, t, Sending(j, w, again))
    decreases w - from
  {
    hide IsRun, After;
    var v := NextWorker(s.workers, from, w);
    steps := LookAt(asm, s, t, j, from, again, v);
    if !IsValid(s, v) {
      var u := After(asm, s, steps);
      var rest := ScanToValid(asm, u, t, j, v + 1, again, w);
      SoloAppend(asm, s, t, steps, rest);
      steps := steps + rest;
      MovedTwice(s, t, Scanning(j, v + 1, again), Sending(j, w, again));
    }
  }

  /** A scan that finds none. */
  lemma {:induction false} ScanInVain(asm: Assumptions, s: State, t: Thread, j: JobId, from: WorkerId, again: bool, top: WorkerId)
    returns (steps: seq<Step>)
    requires At(s, t) == Scanning(j, from, again) && !SomeValid(s) && forall v :: v in s.workers ==> v < top
    ensures Solo(asm, s, t, steps) && After(asm, s, steps) == Moved(s, t, PushingBack(j, again))
    decreases if from < top then top - from else 0
  {
    hide IsRun, After;
    if v :| v in s.workers && from <= v {
      var w := NextWorker(s.workers, from, v);
      steps := LookAt(asm, s, t, j, from, again, w);
      var u := After(asm, s, steps);
      var rest := ScanInVain(asm, u, t, j, w + 1, again, top);
      SoloAppend(asm, s, t, steps, rest);
      steps := steps + rest;
      MovedTwice(s, t, Scanning(j, w + 1, again), PushingBack(j, again));
    } else {
      OneStep(asm, s, t, ScanEnd(t));
      steps := [ScanEnd(t)];
    }
  }

  // One call ---------------------------------------------------------------------------------------------

  function ToWorker(js: seq<JobId>, w: WorkerId): (ds: seq<Dispatch>)
    ensures |ds| == |js| && forall i :: 0 <= i < |js| ==> ds[i] == Dispatch(js[i], w)
  {
    seq(|js|, i requires 0 <= i < |js| => Dispatch(js[i], w))
  }

  /** The state after an uninterrupted call by thread `t`. */
  ghost function AfterCall(s: State, t: Thread): State
    requires At(s, t).Popping?
  {
    var d := Launcher.Drain(s.queue, SomeValid(s));
    s.(threads := s.threads[t := Return(At(s, t).again)], queue := d.queue, woken := d.wakeups > 0,
       dispatched := s.dispatched + ToWorker(d.batch, Found(s.workers)), armed := s.armed + multiset(d.batch))
  }

  lemma {:induction false} CallOnEmpty(asm: Assumptions, s: State, t: Thread)
    requires At(s, t).Popping? && s.queue == []
    ensures Solo(asm, s, t, [TryPop(t)]) && After(asm, s, [TryPop(t)]) == AfterCall(s, t)
  {
    OneStep(asm, s, t, TryPop(t));
    assert s.dispatched + ToWorker([], Found(s.workers)) == s.dispatched;
    assert s.armed + multiset([]) == s.armed;
  }

  lemma {:induction false} BackAndWake(asm: Assumptions, s: State, t: Thread, j: JobId, again: bool) returns (steps: seq<Step>)
    requires At(s, t) == PushingBack(j, again)
    ensures Solo(asm, s, t, steps)
    ensures After(asm, s, steps) == s.(threads := s.threads[t := Return(again)], queue := s.queue + [j], woken := true)
  {
    hide IsRun, After;
    OneStep(asm, s, t, PushBack(t));
    ThenStep(asm, s, t, [PushBack(t)], Wake(t));
    steps := [PushBack(t)] + [Wake(t)];
    assert s.threads[t := Waking(again)][t := Return(again)] == s.threads[t := Return(again)];
  }

  lemma {:induction false} Popped(s: State, t: Thread)
    requires At(s, t).Popping? && s.queue != []
    ensures Enabled(s, TryPop(t))
    ensures Apply(s, TryPop(t)) == Moved(s, t, Scanning(s.queue[0], 0, At(s, t).again)).(queue := s.queue[1..])
  {
  }

  lemma {:induction false} CallWithoutWorker(asm: Assumptions, s: State, t: Thread) returns (steps: seq<Step>)
    requires At(s, t).Popping? && s.queue != [] && !SomeValid(s)
    ensures Solo(asm, s, t, steps) && After(asm, s, steps) == AfterCall(s, t)
  {
    hide IsRun, After, Apply, Enabled;
    var again, j := At(s, t).again, s.queue[0];
    Popped(s, t);
    OneStep(asm, s, t, TryPop(t));
    var popped := Apply(s, TryPop(t));
    var top := BeyondAll(s.workers);
    var scan := ScanInVain(asm, popped, t, j, 0, again, top);
    SoloAppend(asm, s, t, [TryPop(t)], scan);
    var held := After(asm, popped, scan);
    var back := BackAndWake(asm, held, t, j, again);
    SoloAppend(asm, s, t, [TryPop(t)] + scan, back);
    steps := [TryPop(t)] + scan + back;
    assert held.threads[t := Return(again)] == s.threads[t := Return(again)];
    assert s.dispatched + ToWorker([], Found(s.workers)) == s.dispatched;
    assert s.armed + multiset([]) == s.armed;
  }

  /** One round that sends the first job. */
  lemma {:induction false} SendFirst(asm: Assumptions, s: State, t: Thread, w: WorkerId)
    returns (steps: seq<Step>, u: State)
    requires At(s, t).Popping? && s.queue != [] && IsFirstValid(s.workers, w)
    ensures Solo(asm, s, t, steps) && u == After(asm, s, steps)
    ensures u == s.(queue := s.queue[1..], dispatched := s.dispatched + [Dispatch(s.queue[0], w)],
                    armed := s.armed + multiset{s.queue[0]})
  {
    hide IsRun, After;
    var again, j := At(s, t).again, s.queue[0];
    Popped(s, t);
    OneStep(asm, s, t, TryPop(t));
    var popped := Apply(s, TryPop(t));
    var scan := ScanToValid(asm, popped, t, j, 0, again, w);
    SoloAppend(asm, s, t, [TryPop(t)], scan);
    steps := [TryPop(t)] + scan;
    ThenStep(asm, s, t, steps, Send(t));
    steps := steps + [Send(t)];
    u := After(asm, s, steps);
    assert u.threads == s.threads;
  }

  lemma {:induction false} CallWithWorker(asm: Assumptions, s: State, t: Thread) returns (steps: seq<Step>)
    requires At(s, t).Popping? && IsFirstValid(s.workers, Found(s.workers))
    ensures Solo(asm, s, t, steps) && After(asm, s, steps) == AfterCall(s, t)
    decreases |s.queue|
  {
    hide IsRun, After, AfterCall;
    if s.queue == [] {
      CallOnEmpty(asm, s, t);
      steps := [TryPop(t)];
    } else {
      var first, u := SendFirst(asm, s, t, Found(s.workers));
      var rest := CallWithWorker(asm, u, t);
      SoloAppend(asm, s, t, first, rest);
      steps := first + rest;
      SendingFirstIsSame(s, u, t);
    }
  }

  lemma {:induction false} SendingFirstIsSame(s: State, u: State, t: Thread)
    requires At(s, t).Popping? && s.queue != [] && IsFirstValid(s.workers, Found(s.workers))
    requires u == s.(queue := s.queue[1..], dispatched := s.dispatched + [Dispatch(s.queue[0], Found(s.workers))],
                     armed := s.armed + multiset{s.queue[0]})
    ensures AfterCall(u, t) == AfterCall(s, t)
  {
    var j, js, w := s.queue[0], s.queue[1..], Found(s.workers);
    assert w in s.workers && s.workers[w] && w in u.workers && u.workers[w];
    hide Found;
    SendCons(s.dispatched, j, js, w);
    ArmCons(s.armed, j, js);
    assert s.queue == [j] + js;
    assert Launcher.Drain(u.queue, true) == Launcher.Drained([], js, 0);
    assert Launcher.Drain(s.queue, true) == Launcher.Drained([], s.queue, 0);
  }

  lemma {:induction false} SendCons(ds: seq<Dispatch>, j: JobId, js: seq<JobId>, w: WorkerId)
    ensures (ds + [Dispatch(j, w)]) + ToWorker(js, w) == ds + ToWorker([j] + js, w)
  {
  }

  lemma {:induction false} ArmCons(armed: multiset<JobId>, j: JobId, js: seq<JobId>)
    ensures (armed + multiset{j}) + multiset(js) == armed + multiset([j] + js)
  {
  }

  lemma {:induction false} OneCall(asm: Assumptions, s: State, t: Thread) returns (steps: seq<Step>)
    requires At(s, t).Popping?
    ensures Solo(asm, s, t, steps) && After(asm, s, steps) == AfterCall(s, t)
  {
    hide IsRun, After, AfterCall;
    if SomeValid(s) {
      var w :| w in s.workers && s.workers[w];
      FirstValid(s.workers, w);
      steps := CallWithWorker(asm, s, t);
    } else if s.queue == [] {
      CallOnEmpty(asm, s, t);
      steps := [TryPop(t)];
    } else {
      steps := CallWithoutWorker(asm, s, t);
    }
  }

  /** One call, or the two that the handler of a registration makes. */
  ghost function AfterCalls(s: State, t: Thread): State
    requires At(s, t).Popping?
  {
    var u := AfterCall(s, t);
    if At(s, t).again then AfterCall(u, t) else u
  }

  /** From any state, a thread about to run start_jobs that nobody interrupts always comes home, and always in
      the state that the handler-atomic calls end in: the whole queue sent in order to the first valid worker,
      or, if no worker is valid, turned by one with one wakeup. Every run of that thread alone is the
      beginning of the one run `call`. */
  lemma {:induction false} UninterruptedCallIsAtomic(asm: Assumptions, s: State, t: Thread) returns (call: seq<Step>)
    requires At(s, t).Popping?
    ensures Solo(asm, s, t, call) && After(asm, s, call) == AfterCalls(s, t) && At(AfterCalls(s, t), t).Idle?
    ensures forall steps :: Solo(asm, s, t, steps) ==> steps <= call
    ensures forall steps :: Solo(asm, s, t, steps) && At(After(asm, s, steps), t).Idle? ==>
      steps == call && After(asm, s, steps) == AfterCalls(s, t)
  {
    assert At(AfterCall(s, t), t) == Return(At(s, t).again);
    call := OneCall(asm, s, t);
    if At(s, t).again {
      var u := AfterCall(s, t);
      assert At(AfterCall(u, t), t).Idle?;
      var second := OneCall(asm, u, t);
      SoloAppend(asm, s, t, call, second);
      call := call + second;
    }
    hide IsRun, After, AfterCall;
    forall steps | Solo(asm, s, t, steps)
      ensures steps <= call
      ensures At(After(asm, s, steps), t).Idle? ==> steps == call
    {
      SoloRunIsSettled(asm, s, t, steps, call);
    }
  }

  /** A thread that registers a worker makes two calls of start_jobs, one that submits a job makes one. */
  lemma {:induction false} CallsMade(s: State, a: Step)
    requires Enabled(s, a) && (a.AddWorker? || a.Map?)
    ensures At(Apply(s, a), a.t).Popping?
    ensures var u := Apply(s, a); var once := AfterCall(u, a.t);
      if a.AddWorker? then At(once, a.t).Popping? && AfterCalls(u, a.t) == AfterCall(once, a.t)
      else AfterCalls(u, a.t) == once
  {
  }
}
