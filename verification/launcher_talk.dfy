/** What workers say about jobs: the fine-grained launcher together with the workers' wires, their
    readers (worker.hpp) and the strand on which acks and responses are handled (launcher.hpp).

    Fine-grained: a worker may speak at any time about a job it was sent; each wire has one reader,
    which takes its notes in order and posts them to one FIFO strand.
 */
module LauncherTalk {
  import opened KeyHash
  import L = LauncherThreads
  import LI = LauncherInvariants
  import Launcher

  type WorkerId = L.WorkerId
  type JobId = L.JobId

  /** A note with the header key it echoes. */
  datatype Note = Ack(from: WorkerId, key: TopicKey) | Response(from: WorkerId, key: TopicKey)

  datatype State = State(
    pool: L.State,
    wires: map<WorkerId, seq<Note>>,
    strand: seq<Note>,
    states: map<JobId, Launcher.JobState>,
    crashed: bool,
    // The headers that each worker has sent a response for.
    answered: set<(WorkerId, TopicKey)>)

  datatype Step =
    | Launch(a: L.Step)
    | Sends(n: Note)
    | Reads(w: WorkerId)
    | Handles

  function Init(threads: set<L.Thread>): State {
    State(L.Init(threads), map[], [], map[], false, {})
  }

  function Wire(s: State, w: WorkerId): seq<Note> {
    if w in s.wires then s.wires[w] else []
  }

  function StateOf(s: State, j: JobId): Launcher.JobState {
    if j in s.states then s.states[j] else Launcher.Registered
  }

  function Rank(st: Launcher.JobState): nat {
    match st
    case Registered => 0
    case Started => 1
    case Finished => 2
  }

  /** The worker was sent a job with this header key. */
  predicate WasSent(p: L.State, w: WorkerId, key: TopicKey) {
    exists i :: 0 <= i < |p.dispatched| && p.dispatched[i].w == w &&
                p.dispatched[i].j in p.jobs && p.jobs[p.dispatched[i].j].key == key
  }

  predicate Enabled(s: State, a: Step) {
    !s.crashed &&
    match a
    case Launch(b) => L.Enabled(s.pool, b)
    case Sends(n) => WasSent(s.pool, n.from, n.key)
    case Reads(w) => Wire(s, w) != []
    case Handles => s.strand != []
  }

  function Apply(s: State, a: Step): State
    requires Enabled(s, a)
  {
    match a
    case Launch(b) => s.(pool := L.Apply(s.pool, b))
    case Sends(n) =>
      s.(wires := s.wires[n.from := Wire(s, n.from) + [n]],
         answered := if n.Response? then s.answered + {(n.from, n.key)} else s.answered)
    case Reads(w) => s.(strand := s.strand + [Wire(s, w)[0]], wires := s.wires[w := Wire(s, w)[1..]])
    case Handles =>
      var n := s.strand[0];
      var u := s.(strand := s.strand[1..]);
      // A lookup that finds nothing inserts a null pointer, and the handler dereferences it.
      if n.key !in s.pool.mapped then u.(crashed := true)
      else u.(states := s.states[s.pool.mapped[n.key] := if n.Ack? then Launcher.Started else Launcher.Finished])
  }

  /** The assumptions on the launcher, and the workers' protocol: no ack after a response for the same
      header. */
  datatype Assumptions = Assumptions(pool: L.Assumptions, noAckAfterReply: bool)

  ghost predicate Allowed(asm: Assumptions, s: State, a: Step) {
    && Enabled(s, a)
    && (a.Launch? ==> L.Allowed(asm.pool, s.pool, a.a))
    && (asm.noAckAfterReply && a.Sends? && a.n.Ack? ==> (a.n.from, a.n.key) !in s.answered)
  }

  ghost predicate IsRun(asm: Assumptions, s: State, steps: seq<Step>)
    decreases |steps|
  {
    steps == [] || (Allowed(asm, s, steps[0]) && IsRun(asm, Apply(s, steps[0]), steps[1..]))
  }

  ghost function After(asm: Assumptions, s: State, steps: seq<Step>): State
    requires IsRun(asm, s, steps)
    decreases |steps|
  {
    if steps == [] then s else After(asm, Apply(s, steps[0]), steps[1..])
  }

  ghost predicate Reachable(asm: Assumptions, s: State) {
    exists threads, steps :: IsRun(asm, Init(threads), steps) && s == After(asm, Init(threads), steps)
  }

  // One job, one worker ----------------------------------------------------------------------------------

  /** Without timer errors and with fresh salts, a header key belongs to one job, sent to one worker. */
  lemma {:induction false} OneSender(asm: L.Assumptions, p: L.State, i: nat, k: nat)
    requires LI.Inv(asm, p) && asm.freshKeys && asm.noTimerErrors
    requires i < |p.dispatched| && k < |p.dispatched|
    requires p.dispatched[i].j in p.jobs && p.dispatched[k].j in p.jobs
    requires p.jobs[p.dispatched[i].j].key == p.jobs[p.dispatched[k].j].key
    ensures i == k
  {
    assert LI.DistinctKeys(p);
    var j := p.dispatched[i].j;
    assert L.ConservedAt(p, j);
    assert multiset(p.repushed)[j] == 0;
    L.TimesAt(p.dispatched, if i <= k then i else k, if i <= k then k else i);
  }

  lemma {:induction false} SameSender(asm: L.Assumptions, p: L.State, v: WorkerId, w: WorkerId, key: TopicKey)
    requires LI.Inv(asm, p) && asm.freshKeys && asm.noTimerErrors
    requires WasSent(p, v, key) && WasSent(p, w, key)
    ensures v == w
  {
    var i :| 0 <= i < |p.dispatched| && p.dispatched[i].w == v &&
             p.dispatched[i].j in p.jobs && p.jobs[p.dispatched[i].j].key == key;
    var k :| 0 <= k < |p.dispatched| && p.dispatched[k].w == w &&
             p.dispatched[k].j in p.jobs && p.jobs[p.dispatched[k].j].key == key;
    OneSender(asm, p, i, k);
  }

  // The order of notes -----------------------------------------------------------------------------------

  /** No ack in `b` for a header that has a response in `a`. */
  ghost predicate NoAckFor(a: seq<Note>, b: seq<Note>) {
    forall i, k :: 0 <= i < |a| && 0 <= k < |b| && a[i].Response? && b[k].Ack? ==> a[i].key != b[k].key
  }

  /** No ack behind a response for the same header. */
  ghost predicate Ordered(a: seq<Note>) {
    forall i, k :: 0 <= i < k < |a| && a[i].Response? && a[k].Ack? ==> a[i].key != a[k].key
  }

  /** Every note comes from a worker that was sent the job; responses are on record. */
  ghost predicate Genuine(s: State, q: seq<Note>) {
    forall i :: 0 <= i < |q| ==>
      WasSent(s.pool, q[i].from, q[i].key) && (q[i].Response? ==> (q[i].from, q[i].key) in s.answered)
  }

  ghost predicate AllGenuine(s: State) {
    Genuine(s, s.strand) && forall w :: w in s.wires ==> Genuine(s, s.wires[w])
  }

  ghost predicate OwnWires(s: State) {
    forall w, i :: w in s.wires && 0 <= i < |s.wires[w]| ==> s.wires[w][i].from == w
  }

  ghost predicate AllOrdered(s: State) {
    && Ordered(s.strand)
    && (forall w :: w in s.wires ==> Ordered(s.wires[w]) && NoAckFor(s.strand, s.wires[w]))
  }

  /** A finished job was answered, by the worker it was sent to, and no ack for it is on the way. */
  ghost predicate Settled(s: State, j: JobId) {
    && j in s.pool.jobs
    && (exists w :: (w, s.pool.jobs[j].key) in s.answered && WasSent(s.pool, w, s.pool.jobs[j].key))
    && (forall i :: 0 <= i < |s.strand| && s.strand[i].Ack? ==> s.strand[i].key != s.pool.jobs[j].key)
    && (forall w, i :: w in s.wires && 0 <= i < |s.wires[w]| && s.wires[w][i].Ack? ==>
          s.wires[w][i].key != s.pool.jobs[j].key)
  }

  ghost predicate AllSettled(s: State) {
    forall j :: j in s.states && s.states[j].Finished? ==> Settled(s, j)
  }

  ghost predicate Inv(asm: Assumptions, s: State) {
    && LI.Inv(asm.pool, s.pool)
    && AllGenuine(s) && OwnWires(s)
    && (asm.noAckAfterReply && asm.pool.freshKeys && asm.pool.noTimerErrors ==> AllOrdered(s) && AllSettled(s))
  }

  // Steps of the launcher change none of this.

  lemma {:induction false} PoolGrows(p: L.State, b: L.Step, w: WorkerId, key: TopicKey)
    requires L.Enabled(p, b) && WasSent(p, w, key)
    ensures WasSent(L.Apply(p, b), w, key)
  {
    var i :| 0 <= i < |p.dispatched| && p.dispatched[i].w == w &&
             p.dispatched[i].j in p.jobs && p.jobs[p.dispatched[i].j].key == key;
    var q := L.Apply(p, b);
    assert q.dispatched[i] == p.dispatched[i];
  }

  lemma {:induction false} JobsStay(p: L.State, b: L.Step)
    requires L.Enabled(p, b)
    ensures forall j :: j in p.jobs ==> j in L.Apply(p, b).jobs && L.Apply(p, b).jobs[j] == p.jobs[j]
  {
  }

  lemma {:induction false} LaunchKeepsGenuine(s: State, b: L.Step)
    requires L.Enabled(s.pool, b) && !s.crashed && AllGenuine(s)
    ensures AllGenuine(Apply(s, Launch(b)))
  {
    forall w, key | WasSent(s.pool, w, key)
      ensures WasSent(L.Apply(s.pool, b), w, key)
    {
      PoolGrows(s.pool, b, w, key);
    }
    hide L.Apply, WasSent;
  }

  lemma {:induction false} LaunchKeepsSettled(s: State, b: L.Step)
    requires L.Enabled(s.pool, b) && !s.crashed && AllSettled(s)
    ensures AllSettled(Apply(s, Launch(b)))
  {
    JobsStay(s.pool, b);
    forall w, key | WasSent(s.pool, w, key)
      ensures WasSent(L.Apply(s.pool, b), w, key)
    {
      PoolGrows(s.pool, b, w, key);
    }
    hide L.Apply, WasSent;
    var u := Apply(s, Launch(b));
    forall j | j in u.states && u.states[j].Finished?
      ensures Settled(u, j)
    {
      assert Settled(s, j);
      var w :| (w, s.pool.jobs[j].key) in s.answered && WasSent(s.pool, w, s.pool.jobs[j].key);
      assert WasSent(u.pool, w, u.pool.jobs[j].key);
    }
  }

  // A worker speaks.

  lemma {:induction false} SendKeepsGenuine(s: State, n: Note)
    requires Enabled(s, Sends(n)) && AllGenuine(s) && OwnWires(s)
    ensures AllGenuine(Apply(s, Sends(n))) && OwnWires(Apply(s, Sends(n)))
  {
    hide WasSent;
    var u := Apply(s, Sends(n));
    assert WasSent(s.pool, n.from, n.key);
    assert Genuine(s, Wire(s, n.from));
    assert Genuine(u, u.strand);
    forall w | w in u.wires
      ensures Genuine(u, u.wires[w])
    {
      assert w != n.from ==> Genuine(s, s.wires[w]);
    }
  }

  lemma {:induction false} SendKeepsOrdered(asm: Assumptions, s: State, n: Note)
    requires LI.Inv(asm.pool, s.pool) && asm.pool.freshKeys && asm.pool.noTimerErrors
    requires Enabled(s, Sends(n)) && AllGenuine(s) && AllOrdered(s)
    requires n.Ack? ==> (n.from, n.key) !in s.answered
    ensures AllOrdered(Apply(s, Sends(n)))
  {
    hide LI.Inv, WasSent;
    var u := Apply(s, Sends(n));
    var q := Wire(s, n.from);
    assert Ordered(q) && NoAckFor(s.strand, q) && Genuine(s, q);
    if n.Ack? {
      forall i | 0 <= i < |q| && q[i].Response?
        ensures q[i].key != n.key
      {
        if q[i].key == n.key {
          SameSender(asm.pool, s.pool, q[i].from, n.from, n.key);
        }
      }
      forall i | 0 <= i < |s.strand| && s.strand[i].Response?
        ensures s.strand[i].key != n.key
      {
        if s.strand[i].key == n.key {
          SameSender(asm.pool, s.pool, s.strand[i].from, n.from, n.key);
        }
      }
    }
    assert Ordered(q + [n]) && NoAckFor(s.strand, q + [n]);
  }

  lemma {:induction false} SendKeepsSettled(asm: Assumptions, s: State, n: Note)
    requires LI.Inv(asm.pool, s.pool) && asm.pool.freshKeys && asm.pool.noTimerErrors
    requires Enabled(s, Sends(n)) && AllSettled(s)
    requires n.Ack? ==> (n.from, n.key) !in s.answered
    ensures AllSettled(Apply(s, Sends(n)))
  {
    hide LI.Inv, WasSent;
    var u := Apply(s, Sends(n));
    forall j | j in u.states && u.states[j].Finished?
      ensures Settled(u, j)
    {
      assert Settled(s, j);
      var key := s.pool.jobs[j].key;
      var w :| (w, key) in s.answered && WasSent(s.pool, w, key);
      if n.Ack? && n.key == key {
        SameSender(asm.pool, s.pool, w, n.from, key);
      }
      assert (w, key) in u.answered && WasSent(u.pool, w, key);
    }
  }

  // A reader posts.

  lemma {:induction false} ReadKeepsGenuine(s: State, w: WorkerId)
    requires Enabled(s, Reads(w)) && AllGenuine(s) && OwnWires(s)
    ensures AllGenuine(Apply(s, Reads(w))) && OwnWires(Apply(s, Reads(w)))
  {
    hide WasSent;
    var u := Apply(s, Reads(w));
    assert Genuine(s, s.wires[w]);
    assert forall v :: v in u.wires && v != w ==> Genuine(u, u.wires[v]);
  }

  lemma {:induction false} ReadKeepsOrdered(asm: Assumptions, s: State, w: WorkerId)
    requires LI.Inv(asm.pool, s.pool) && asm.pool.freshKeys && asm.pool.noTimerErrors
    requires Enabled(s, Reads(w)) && AllGenuine(s) && OwnWires(s) && AllOrdered(s)
    ensures AllOrdered(Apply(s, Reads(w)))
  {
    hide LI.Inv, WasSent;
    var u := Apply(s, Reads(w));
    var q := s.wires[w];
    var n := q[0];
    assert Ordered(q) && NoAckFor(s.strand, q);
    assert Ordered(s.strand + [n]);
    assert Ordered(q[1..]) && NoAckFor(s.strand + [n], q[1..]);
    forall v | v in u.wires && v != w
      ensures NoAckFor(s.strand + [n], u.wires[v])
    {
      var r := s.wires[v];
      assert NoAckFor(s.strand, r) && Genuine(s, r) && Genuine(s, q);
      forall k | 0 <= k < |r| && n.Response? && r[k].Ack?
        ensures n.key != r[k].key
      {
        if n.key == r[k].key {
          SameSender(asm.pool, s.pool, n.from, r[k].from, n.key);
        }
      }
    }
  }

  lemma {:induction false} ReadKeepsSettled(s: State, w: WorkerId)
    requires Enabled(s, Reads(w)) && AllSettled(s)
    ensures AllSettled(Apply(s, Reads(w)))
  {
    hide WasSent;
    var u := Apply(s, Reads(w));
    forall j | j in u.states && u.states[j].Finished?
      ensures Settled(u, j)
    {
      assert Settled(s, j);
      assert s.wires[w][0].Ack? ==> s.wires[w][0].key != s.pool.jobs[j].key;
    }
  }

  // The strand handles a note.

  lemma {:induction false} HandleKeepsGenuine(s: State)
    requires Enabled(s, Handles) && AllGenuine(s) && OwnWires(s)
    ensures AllGenuine(Apply(s, Handles)) && OwnWires(Apply(s, Handles))
  {
    hide WasSent;
    var u := Apply(s, Handles);
    assert forall w :: w in u.wires ==> Genuine(s, s.wires[w]) && Genuine(u, u.wires[w]);
  }

  lemma {:induction false} HandleKeepsOrdered(s: State)
    requires Enabled(s, Handles) && AllOrdered(s)
    ensures AllOrdered(Apply(s, Handles))
  {
    var u := Apply(s, Handles);
    assert forall w :: w in u.wires ==> NoAckFor(u.strand, u.wires[w]);
  }

  lemma {:induction false} HandleKeepsSettled(s: State)
    requires LI.MapsJobs(s.pool)
    requires Enabled(s, Handles) && AllGenuine(s) && AllOrdered(s) && AllSettled(s)
    ensures AllSettled(Apply(s, Handles))
  {
    hide WasSent;
    var u := Apply(s, Handles);
    var n := s.strand[0];
    forall j | j in u.states && u.states[j].Finished?
      ensures Settled(u, j)
    {
      if j in s.states && s.states[j].Finished? {
        assert Settled(s, j);
      } else {
        // This note is the response for j.
        assert n.Response? && s.pool.mapped[n.key] == j && s.pool.jobs[j].key == n.key;
        assert WasSent(s.pool, n.from, n.key) && (n.from, n.key) in s.answered;
        assert forall w :: w in s.wires ==> NoAckFor(s.strand, s.wires[w]);
      }
    }
  }

  lemma {:induction false} StepKeepsInv(asm: Assumptions, s: State, a: Step)
    requires Inv(asm, s) && Allowed(asm, s, a)
    ensures Inv(asm, Apply(s, a))
  {
    hide WasSent, AllGenuine, OwnWires, AllOrdered, AllSettled, L.Apply;
    var orderly := asm.noAckAfterReply && asm.pool.freshKeys && asm.pool.noTimerErrors;
    match a {
      case Launch(b) =>
        LI.StepKeepsInv(asm.pool, s.pool, b);
        LaunchKeepsGenuine(s, b);
        LaunchKeepsRest(s, b);
        if orderly {
          LaunchKeepsSettled(s, b);
        }
      case Sends(n) =>
        SendKeepsGenuine(s, n);
        if orderly {
          SendKeepsOrdered(asm, s, n);
          SendKeepsSettled(asm, s, n);
        }
      case Reads(w) =>
        ReadKeepsGenuine(s, w);
        if orderly {
          ReadKeepsOrdered(asm, s, w);
          ReadKeepsSettled(s, w);
        }
      case Handles =>
        HandleKeepsGenuine(s);
        if orderly {
          HandleKeepsOrdered(s);
          HandleKeepsSettled(s);
        }
    }
  }

  lemma {:induction false} LaunchKeepsRest(s: State, b: L.Step)
    requires L.Enabled(s.pool, b) && !s.crashed
    ensures OwnWires(s) ==> OwnWires(Apply(s, Launch(b)))
    ensures AllOrdered(s) ==> AllOrdered(Apply(s, Launch(b)))
  {
    hide L.Apply;
  }

  lemma {:induction false} RunKeepsInv(asm: Assumptions, s: State, steps: seq<Step>)
    requires Inv(asm, s) && IsRun(asm, s, steps)
    ensures Inv(asm, After(asm, s, steps))
    decreases |steps|
  {
    hide Inv, Apply;
    if steps != [] {
      StepKeepsInv(asm, s, steps[0]);
      RunKeepsInv(asm, Apply(s, steps[0]), steps[1..]);
    }
  }

  lemma {:induction false} ReachableInv(asm: Assumptions, s: State)
    requires Reachable(asm, s)
    ensures Inv(asm, s)
  {
    hide LI.Inv, IsRun, After, Apply;
    var threads, steps :| IsRun(asm, Init(threads), steps) && s == After(asm, Init(threads), steps);
    LI.InitInv(asm.pool, threads);
    RunKeepsInv(asm, Init(threads), steps);
  }

  // Theorems ---------------------------------------------------------------------------------------------

  /** With fresh salts, no timer errors, and workers that send no ack after their response for the same
      header, no step of anybody takes a job back from finished or started to an earlier state. */
  lemma {:induction false} JobStateOnlyForward(asm: Assumptions, s: State, a: Step, j: JobId)
    requires Reachable(asm, s) && Allowed(asm, s, a)
    requires asm.noAckAfterReply && asm.pool.freshKeys && asm.pool.noTimerErrors
    ensures Rank(StateOf(s, j)) <= Rank(StateOf(Apply(s, a), j))
  {
    ReachableInv(asm, s);
    assert LI.MapsJobs(s.pool);
    if StateOf(s, j).Finished? {
      assert Settled(s, j);
    }
  }

  /** With fresh salts, the handler of a note finds a job if and only if the job's submitting thread has
      passed its emplace; then it is the job that the worker was sent. */
  lemma {:induction false} LookupFindsTheJob(asm: Assumptions, s: State)
    returns (j: JobId)
    requires Reachable(asm, s) && asm.pool.freshKeys && Enabled(s, Handles)
    ensures j in s.pool.jobs && s.pool.jobs[j].key == s.strand[0].key
    ensures exists i :: 0 <= i < |s.pool.dispatched| && s.pool.dispatched[i] == L.Dispatch(j, s.strand[0].from)
    ensures Apply(s, Handles).crashed <==> L.At(s.pool, s.pool.jobs[j].maker) == L.Mapping(j)
    ensures !Apply(s, Handles).crashed ==>
      && s.pool.mapped[s.strand[0].key] == j
      && StateOf(Apply(s, Handles), j) == (if s.strand[0].Ack? then Launcher.Started else Launcher.Finished)
      && forall i :: i != j ==> StateOf(Apply(s, Handles), i) == StateOf(s, i)
  {
    ReachableInv(asm, s);
    var p, n := s.pool, s.strand[0];
    assert WasSent(p, n.from, n.key);
    var i :| 0 <= i < |p.dispatched| && p.dispatched[i].w == n.from &&
             p.dispatched[i].j in p.jobs && p.jobs[p.dispatched[i].j].key == n.key;
    j := p.dispatched[i].j;
    L.TimesAt(p.dispatched, i, i);
    LI.MappedWhenSomewhere(asm.pool, p, j);
    assert p.dispatched[i] == L.Dispatch(j, n.from);
  }

  // No note is lost ------------------------------------------------------------------------------------------

  /** The notes of one worker among some, in order. */
  function From(ns: seq<Note>, w: WorkerId): seq<Note> {
    if ns == [] then [] else From(ns[..|ns| - 1], w) + if ns[|ns| - 1].from == w then [ns[|ns| - 1]] else []
  }

  lemma {:induction false} FromAppend(a: seq<Note>, b: seq<Note>, w: WorkerId)
    ensures From(a + b, w) == From(a, w) + From(b, w)
  {
    if b == [] {
      assert a + b == a;
    } else {
      var m := |b| - 1;
      assert (a + b)[..|a + b| - 1] == a + b[..m];
      FromAppend(a, b[..m], w);
    }
  }

  lemma {:induction false} FromOne(n: Note, w: WorkerId)
    ensures From([n], w) == if n.from == w then [n] else []
  {
    assert [n][..0] == [];
  }

  /** The note that a step puts on a wire, and the one that it handles. */
  function Said(a: Step): seq<Note> {
    if a.Sends? then [a.n] else []
  }

  function Handled(s: State, a: Step): seq<Note>
    requires Enabled(s, a)
  {
    if a.Handles? then [s.strand[0]] else []
  }

  ghost function AllSaid(steps: seq<Step>): seq<Note> {
    if steps == [] then [] else Said(steps[0]) + AllSaid(steps[1..])
  }

  ghost function AllHandled(asm: Assumptions, s: State, steps: seq<Step>): seq<Note>
    requires IsRun(asm, s, steps)
    decreases |steps|
  {
    if steps == [] then [] else Handled(s, steps[0]) + AllHandled(asm, Apply(s, steps[0]), steps[1..])
  }

  /** What is on its way from one worker: on the strand, then on the wire. */
  ghost function Underway(s: State, w: WorkerId): seq<Note> {
    From(s.strand, w) + Wire(s, w)
  }

  lemma {:induction false} ReadGives(s: State, v: WorkerId, w: WorkerId)
    requires Enabled(s, Reads(v)) && OwnWires(s)
    ensures Wire(s, v) != [] && Wire(s, v)[0].from == v
    ensures Apply(s, Reads(v)).strand == s.strand + [Wire(s, v)[0]]
    ensures Wire(Apply(s, Reads(v)), w) == if w == v then Wire(s, v)[1..] else Wire(s, w)
  {
    hide WasSent;
  }

  lemma {:induction false} ReadKeepsUnderway(s: State, v: WorkerId, w: WorkerId)
    requires Enabled(s, Reads(v)) && OwnWires(s)
    ensures Underway(Apply(s, Reads(v)), w) == Underway(s, w)
  {
    hide Apply, Enabled, OwnWires, Wire, From;
    ReadGives(s, v, w);
    var n, q := Wire(s, v)[0], Wire(s, v);
    FromAppend(s.strand, [n], w);
    FromOne(n, w);
    if w == v {
      assert q == [n] + q[1..];
      assert (From(s.strand, w) + [n]) + q[1..] == From(s.strand, w) + ([n] + q[1..]);
    } else {
      assert From(s.strand, w) + [] == From(s.strand, w);
    }
  }

  lemma {:induction false} SayKeepsNotes(s: State, n: Note, w: WorkerId)
    requires Enabled(s, Sends(n))
    ensures Underway(s, w) + From([n], w) == Underway(Apply(s, Sends(n)), w)
  {
    hide WasSent;
    FromOne(n, w);
    var u := Apply(s, Sends(n));
    assert u.strand == s.strand && Wire(u, w) == Wire(s, w) + From([n], w);
    hide From, Apply, Enabled;
  }

  lemma {:induction false} HandleKeepsNotes(s: State, w: WorkerId)
    requires Enabled(s, Handles)
    ensures Underway(s, w) == From([s.strand[0]], w) + Underway(Apply(s, Handles), w)
  {
    assert s.strand == [s.strand[0]] + s.strand[1..];
    FromAppend([s.strand[0]], s.strand[1..], w);
    var u := Apply(s, Handles);
    assert u.strand == s.strand[1..] && u.wires == s.wires;
    hide From, Apply, Enabled;
  }

  lemma {:induction false} StepKeepsNotes(s: State, a: Step, w: WorkerId)
    requires Enabled(s, a) && OwnWires(s)
    ensures Underway(s, w) + From(Said(a), w) == From(Handled(s, a), w) + Underway(Apply(s, a), w)
  {
    hide WasSent, L.Apply, L.Enabled, OwnWires;
    assert From([], w) == [];
    if a.Reads? {
      ReadKeepsUnderway(s, a.w, w);
    } else if a.Sends? {
      SayKeepsNotes(s, a.n, w);
    } else if a.Handles? {
      HandleKeepsNotes(s, w);
    }
    hide From;
  }

  lemma {:induction false} StepKeepsOwnWires(s: State, a: Step)
    requires Enabled(s, a) && OwnWires(s)
    ensures OwnWires(Apply(s, a))
  {
    hide L.Apply, L.Enabled, WasSent;
  }

  /** Over any run, and for each worker: what it had underway and then said is what was handled of it, in the same
      order, and then what it has underway still. No note is lost, doubled, or overtaken by one of its own. */
  lemma {:induction false} NoNoteLost(asm: Assumptions, s: State, steps: seq<Step>, w: WorkerId)
    requires IsRun(asm, s, steps) && OwnWires(s)
    ensures Underway(s, w) + From(AllSaid(steps), w) == From(AllHandled(asm, s, steps), w) + Underway(After(asm, s, steps), w)
    decreases |steps|
  {
    hide Apply, Enabled, Underway, Handled, Said, OwnWires;
    if steps != [] {
      var u := Apply(s, steps[0]);
      StepKeepsOwnWires(s, steps[0]);
      StepKeepsNotes(s, steps[0], w);
      NoNoteLost(asm, u, steps[1..], w);
      FromAppend(Said(steps[0]), AllSaid(steps[1..]), w);
      FromAppend(Handled(s, steps[0]), AllHandled(asm, u, steps[1..]), w);
      Regroup4(Underway(s, w), From(Said(steps[0]), w), From(Handled(s, steps[0]), w), Underway(u, w),
               From(AllSaid(steps[1..]), w), From(AllHandled(asm, u, steps[1..]), w), Underway(After(asm, u, steps[1..]), w));
    }
  }

  lemma {:induction false} Regroup4(a: seq<Note>, b: seq<Note>, c: seq<Note>, d: seq<Note>, x: seq<Note>, y: seq<Note>, z: seq<Note>)
    requires a + b == c + d && d + x == y + z
    ensures a + (b + x) == (c + y) + z
  {
    assert a + (b + x) == (a + b) + x == (c + d) + x == c + (d + x) == c + (y + z) == (c + y) + z;
  }

  // What the assumptions are for ---------------------------------------------------------------------------

  function Lifted(steps: seq<L.Step>): seq<Step> {
    if steps == [] then [] else [Launch(steps[0])] + Lifted(steps[1..])
  }

  lemma {:induction false} LiftRun(asm: Assumptions, s: State, steps: seq<L.Step>)
    requires L.IsRun(asm.pool, s.pool, steps) && !s.crashed
    ensures IsRun(asm, s, Lifted(steps))
    ensures After(asm, s, Lifted(steps)) == s.(pool := L.After(asm.pool, s.pool, steps))
    decreases |steps|
  {
    if steps != [] {
      var u := Apply(s, Launch(steps[0]));
      LiftRun(asm, u, steps[1..]);
      assert Lifted(steps)[0] == Launch(steps[0]) && Lifted(steps)[1..] == Lifted(steps[1..]);
    }
  }

  /** Whatever the launcher can reach, it can reach before any worker has spoken. */
  lemma {:induction false} Silent(asm: Assumptions, p: L.State) returns (s: State)
    requires L.Reachable(asm.pool, p)
    ensures Reachable(asm, s) && s == State(p, map[], [], map[], false, {})
  {
    var threads, steps :| L.IsRun(asm.pool, L.Init(threads), steps) && p == L.After(asm.pool, L.Init(threads), steps);
    LiftRun(asm, Init(threads), steps);
    s := State(p, map[], [], map[], false, {});
    assert IsRun(asm, Init(threads), Lifted(steps)) && s == After(asm, Init(threads), Lifted(steps));
  }

  lemma {:induction false} Extend(asm: Assumptions, s: State, steps: seq<Step>, a: Step)
    requires IsRun(asm, s, steps) && Allowed(asm, After(asm, s, steps), a)
    ensures IsRun(asm, s, steps + [a])
    ensures After(asm, s, steps + [a]) == Apply(After(asm, s, steps), a)
    decreases |steps|
  {
    if steps == [] {
      assert steps + [a] == [a] && [a][1..] == [];
    } else {
      Extend(asm, Apply(s, steps[0]), steps[1..], a);
      assert (steps + [a])[0] == steps[0] && (steps + [a])[1..] == steps[1..] + [a];
    }
  }

  lemma {:induction false} Do(asm: Assumptions, s: State, a: Step) returns (u: State)
    requires Reachable(asm, s) && Allowed(asm, s, a)
    ensures u == Apply(s, a) && Reachable(asm, u)
  {
    var threads, steps :| IsRun(asm, Init(threads), steps) && s == After(asm, Init(threads), steps);
    Extend(asm, Init(threads), steps, a);
    u := Apply(s, a);
  }

  /** A worker sends a note and its reader posts it. */
  lemma {:induction false} Tell(asm: Assumptions, s: State, n: Note) returns (u: State)
    requires Reachable(asm, s) && !s.crashed && WasSent(s.pool, n.from, n.key) && Wire(s, n.from) == []
    requires asm.noAckAfterReply && n.Ack? ==> (n.from, n.key) !in s.answered
    ensures Reachable(asm, u)
    ensures u == s.(wires := s.wires[n.from := []], strand := s.strand + [n],
                    answered := if n.Response? then s.answered + {(n.from, n.key)} else s.answered)
  {
    hide Reachable, WasSent;
    u := Do(asm, s, Sends(n));
    assert Wire(u, n.from) == [n];
    u := Do(asm, u, Reads(n.from));
    assert u.wires == s.wires[n.from := []];
  }

  const POLITE := Assumptions(LI.FRESH, true)
  const RUDE := Assumptions(LI.FRESH, false)

  /** A quick worker is answered by a crash: its response is handled before the job is mapped, although
      every salt is fresh and the worker keeps the protocol. */
  lemma {:induction false} EarlyResponseCrashes(key: TopicKey) returns (s: State)
    ensures Reachable(POLITE, s) && s.crashed
  {
    hide Reachable, L.Reachable;
    var p := LI.SentBeforeMapped(key);
    var s0 := Silent(POLITE, p);
    assert p.dispatched[0] == L.Dispatch(0, 0);
    assert WasSent(p, 0, key);
    var s1 := Tell(POLITE, s0, Response(0, key));
    assert s1.strand == [Response(0, key)];
    s := Do(POLITE, s1, Handles);
  }

  /** A worker that acknowledges after it has responded takes the job back from finished to started. */
  lemma {:induction false} LateAckTurnsBack(key: TopicKey) returns (s: State, a: Step)
    ensures Reachable(RUDE, s) && Allowed(RUDE, s, a)
    ensures StateOf(s, 0) == Launcher.Finished && StateOf(Apply(s, a), 0) == Launcher.Started
  {
    hide Reachable, L.Reachable;
    var p := LI.SentAndMapped(key);
    var s0 := Silent(RUDE, p);
    assert p.dispatched[0] == L.Dispatch(0, 0);
    assert WasSent(p, 0, key);
    var s1 := Tell(RUDE, s0, Response(0, key));
    assert s1.strand == [Response(0, key)] && s1.pool.mapped == map[key := 0];
    var s2 := Do(RUDE, s1, Handles);
    assert s2.strand == [] && StateOf(s2, 0) == Launcher.Finished;
    s := Tell(RUDE, s2, Ack(0, key));
    assert s.strand == [Ack(0, key)];
    a := Handles;
  }
}
