/** The job launcher of launcher.hpp, with the validity flag and the frame writer of worker.hpp.

    Handler-atomic: each method is one call that no other thread interrupts. `LauncherThreads` has the
    same launcher under all interleavings.
 */
module Launcher {
  import opened Wire
  import opened KeyHash

  datatype JobState = Registered | Started | Finished

  // What one call of start_jobs does ------------------------------------------------------------------

  function Rotate<J>(q: seq<J>): (r: seq<J>)
    requires q != []
    ensures |r| == |q|
  {
    q[1..] + [q[0]]
  }

  /** The queue left, the jobs sent to the one worker found, and the wakeups issued. */
  datatype Drained<J> = Drained(queue: seq<J>, batch: seq<J>, wakeups: nat)

  function Drain<J>(q: seq<J>, available: bool): Drained<J> {
    if q == [] then Drained([], [], 0)
    else if available then Drained([], q, 0)
    else Drained(Rotate(q), [], 1)
  }

  function DrainTimes<J>(q: seq<J>, n: nat): seq<J> {
    if n == 0 then q else Drain(DrainTimes(q, n - 1), false).queue
  }

  /** Calls that find no worker only turn the queue; as many as it has jobs restore its order. */
  lemma {:induction false} FailedCallsTurn<J>(q: seq<J>, n: nat)
    requires n <= |q|
    ensures DrainTimes(q, n) == q[n..] + q[..n]
    ensures DrainTimes(q, |q|) == q || n < |q|
  {
    if n == 0 {
      assert q[0..] + q[..0] == q;
    } else {
      FailedCallsTurn(q, n - 1);
      var t := q[n - 1..] + q[..n - 1];
      assert t[1..] + [t[0]] == q[n..] + q[..n];
      assert n == |q| ==> q[n..] + q[..n] == q;
    }
  }

  /** No call loses or duplicates a job. */
  lemma {:induction false} DrainConserves<J>(q: seq<J>, available: bool)
    ensures var d := Drain(q, available);
            && multiset(q) == multiset(d.queue) + multiset(d.batch)
            && d.batch == (if available then q else [])
            && (q != [] && !available ==> d.queue == q[1..] + [q[0]])
            && (d.queue != [] <==> q != [] && !available)
            && (d.wakeups == 1 <==> d.queue != [])
  {
    if q != [] {
      assert q == [q[0]] + q[1..];
    }
  }

  // Objects --------------------------------------------------------------------------------------------

  class Worker {
    var valid: bool
    // The frames written to the socket, one atomic append per start_write.
    var written: seq<Packet>

    constructor ()
      ensures valid && written == []
    {
      valid, written := true, [];
    }

    method StartPost(p: Packet)
      modifies this`written
      ensures written == old(written) + [Stamped(p)]
    {
      written := written + [Stamped(p)];
    }
  }

  class Job {
    const pack: Packet
    // The connection whose callback was connected to on_completion_.
    const origin: nat
    var state: JobState

    constructor (pack: Packet, origin: nat)
      ensures this.pack == pack && this.origin == origin && state == Registered
    {
      this.pack, this.origin, state := pack, origin, Registered;
    }
  }

  function Packs(js: seq<Job>): (r: seq<Packet>)
    ensures |r| == |js|
    ensures forall i :: 0 <= i < |js| ==> r[i] == Stamped(js[i].pack)
  {
    seq(|js|, i requires 0 <= i < |js| => Stamped(js[i].pack))
  }

  function Inserted<T>(s: seq<T>, pos: nat, x: T): (r: seq<T>)
    requires pos <= |s|
    ensures |r| == |s| + 1 && r[pos] == x
  {
    s[..pos] + [x] + s[pos..]
  }

  datatype Completion = Completion(origin: nat, packet: Packet)

  /** The position of the first `true`, or the length. */
  function FirstTrue(f: seq<bool>): (i: nat)
    ensures i <= |f|
    ensures i < |f| ==> f[i]
    ensures forall j :: 0 <= j < i ==> !f[j]
  {
    if f == [] || f[0] then 0 else 1 + FirstTrue(f[1..])
  }

  lemma {:induction false} FirstTrueIs(f: seq<bool>, i: nat)
    requires i <= |f| && (i < |f| ==> f[i])
    requires forall j :: 0 <= j < i ==> !f[j]
    ensures FirstTrue(f) == i
    ensures i < |f| <==> true in f
  {
  }

  /** One worker's frames extended by a batch; nobody's, if there is no such worker. */
  function SentTo(sent: seq<seq<Packet>>, i: nat, batch: seq<Packet>): (r: seq<seq<Packet>>)
    ensures |r| == |sent|
  {
    if i < |sent| then sent[i := sent[i] + batch] else sent
  }

  lemma {:induction false} SentNothing(sent: seq<seq<Packet>>, i: nat)
    ensures SentTo(sent, i, []) == sent
  {
    if i < |sent| {
      assert sent[i] + [] == sent[i];
    }
  }

  lemma {:induction false} SentMore(sent: seq<seq<Packet>>, i: nat, batch: seq<Packet>, p: Packet)
    requires i < |sent|
    ensures SentTo(sent, i, batch + [p]) == SentTo(SentTo(sent, i, batch), i, [p])
  {
    assert sent[i] + (batch + [p]) == (sent[i] + batch) + [p];
  }

  lemma {:induction false} FirstInserted(f: seq<bool>, pos: nat)
    requires pos <= |f|
    ensures true in Inserted(f, pos, true)
    ensures true !in f ==> FirstTrue(Inserted(f, pos, true)) == pos
  {
    var g := Inserted(f, pos, true);
    assert g[pos];
    if true !in f {
      assert forall j :: 0 <= j < pos ==> g[j] == f[j];
      FirstTrueIs(g, pos);
    }
  }

  /** Draining right after a valid worker was inserted sends everything to that worker. */
  lemma {:induction false} DrainToInserted(q: seq<Job>, f: seq<bool>, sent: seq<seq<Packet>>, pos: nat)
    requires pos <= |f| == |sent| && (q != [] ==> true !in f)
    ensures true in Inserted(f, pos, true)
    ensures SentTo(Inserted(sent, pos, []), FirstTrue(Inserted(f, pos, true)), Packs(q)) == Inserted(sent, pos, Packs(q))
  {
    FirstInserted(f, pos);
    var g, first := Inserted(sent, pos, []), FirstTrue(Inserted(f, pos, true));
    if q == [] {
      assert Packs(q) == [];
      SentNothing(g, first);
    } else {
      assert [] + Packs(q) == Packs(q);
      assert SentTo(g, first, Packs(q)) == g[pos := Packs(q)] == Inserted(sent, pos, Packs(q));
    }
  }

  const ZERO_KEY: Key :=
    [0, 0, 0, 0, 0, 0, 0, 0, 0, 0, 0, 0, 0, 0, 0, 0, 0, 0, 0, 0, 0, 0, 0, 0, 0, 0, 0, 0, 0, 0, 0, 0]

  ghost predicate Distinct(ws: seq<Worker>) {
    forall i, j :: 0 <= i < |ws| && 0 <= j < |ws| && ws[i] == ws[j] ==> i == j
  }

  lemma {:induction false} InsertedDistinct(ws: seq<Worker>, pos: nat, w: Worker)
    requires Distinct(ws) && w !in ws && pos <= |ws|
    ensures Distinct(Inserted(ws, pos, w))
  {
  }

  class LauncherObject {
    var registeredJobs: seq<Job>
    var startedJobs: map<TopicKey, Job>
    // In the order in which the concurrent set iterates.
    var workers: seq<Worker>
    var wakeups: nat
    var completions: seq<Completion>

    // What the workers' own fields say, position by position.
    ghost var flags: seq<bool>
    ghost var sent: seq<seq<Packet>>

    ghost predicate Tied()
      reads this`workers, this`flags, this`sent, workers
    {
      && |flags| == |sent| == |workers|
      && Distinct(workers)
      && (forall i :: 0 <= i < |workers| ==> workers[i].valid == flags[i] && workers[i].written == sent[i])
    }

    /** No stranded work: a job waits only while there is no valid worker. */
    ghost predicate Valid()
      reads this`registeredJobs, this`workers, this`flags, this`sent, workers
    {
      Tied() && (registeredJobs != [] ==> true !in flags)
    }

    constructor ()
      ensures Valid() && registeredJobs == [] && startedJobs == map[] && workers == []
      ensures wakeups == 0 && completions == []
    {
      registeredJobs, startedJobs, workers, wakeups, completions := [], map[], [], 0, [];
      flags, sent := [], [];
    }

    /** The first valid worker in iteration order, if any is valid. */
    method GetAvailableWorker() returns (i: nat)
      requires Tied()
      ensures i == FirstTrue(flags)
    {
      i := 0;
      while i < |workers| && !workers[i].valid
        invariant 0 <= i <= |workers|
        invariant forall j :: 0 <= j < i ==> !flags[j]
      {
        i := i + 1;
      }
      FirstTrueIs(flags, i);
    }

    /** `worker_ptr->start_post(j->pack_)`. */
    method PostTo(i: nat, p: Packet)
      requires Tied() && i < |workers|
      modifies this`sent, workers[i]
      ensures Tied() && sent == old(sent)[i := old(sent)[i] + [Stamped(p)]]
    {
      workers[i].StartPost(p);
      sent := sent[i := sent[i] + [Stamped(p)]];
    }

    /** One iteration of the loop of `start_jobs`; the result says whether it goes on. */
    method StartNext() returns (more: bool)
      requires Tied() && registeredJobs != []
      modifies this`registeredJobs, this`wakeups, this`sent, workers
      ensures Tied() && more == (FirstTrue(flags) < |workers|)
      ensures more ==>
                registeredJobs == old(registeredJobs)[1..] && wakeups == old(wakeups) &&
                sent == SentTo(old(sent), FirstTrue(flags), [Stamped(old(registeredJobs)[0].pack)])
      ensures !more ==>
                registeredJobs == Rotate(old(registeredJobs)) && wakeups == old(wakeups) + 1 && sent == old(sent)
    {
      var j := registeredJobs[0];
      registeredJobs := registeredJobs[1..];
      var i := GetAvailableWorker();
      if i == |workers| {
        registeredJobs := registeredJobs + [j];
        wakeups := wakeups + 1;
        return false;
      }
      PostTo(i, j.pack);
      more := true;
    }

    /** `start_jobs`. If some worker is valid, the whole queue goes to the first valid one, in queue
        order; otherwise a non-empty queue is turned by one and one wakeup is issued. */
    method StartJobs()
      requires Tied()
      modifies this`registeredJobs, this`wakeups, this`sent, workers
      ensures var d := Drain(old(registeredJobs), true in flags);
              && registeredJobs == d.queue && wakeups == old(wakeups) + d.wakeups
              && sent == SentTo(old(sent), FirstTrue(flags), Packs(d.batch))
      ensures Valid()
    {
      ghost var q := registeredJobs;
      ghost var done := 0;
      ghost var first := FirstTrue(flags);
      ghost var before := sent;
      FirstTrueIs(flags, first);
      SentNothing(before, first);
      var more := true;
      while more && registeredJobs != []
        invariant 0 <= done <= |q| && Tied()
        invariant more ==> registeredJobs == q[done..] && wakeups == old(wakeups)
        invariant more ==> (done > 0 ==> first < |workers|) && sent == SentTo(before, first, Packs(q[..done]))
        invariant !more ==> first == |workers| && q != []
        invariant !more ==> registeredJobs == Rotate(q) && wakeups == old(wakeups) + 1 && sent == before
        decreases more, |registeredJobs|
      {
        more := StartNext();
        if more {
          MorePacks(q, done);
          SentMore(before, first, Packs(q[..done]), Stamped(q[done].pack));
          done := done + 1;
        }
      }
      assert more ==> q[..done] == q;
    }

    /** `start_trigger_post`: makes the job, pushes it, maps it, and drains. `sequence` and `salt` are
        what `gen` drew. */
    method SubmitJob(body: seq<byte>, origin: nat, sequence: Quad, salt: Quad) returns (j: Job)
      requires Valid()
      modifies this`registeredJobs, this`startedJobs, this`wakeups, this`sent, workers
      ensures fresh(j) && j.origin == origin && j.pack.data == body && j.state == Registered
      ensures j.pack.header.typ == WORKER_PUSH_REQUEST && KeyOf(j.pack.header) == TopicKey(ZERO_KEY, salt)
      ensures startedJobs == if TopicKey(ZERO_KEY, salt) in old(startedJobs) then old(startedJobs)
                             else old(startedJobs)[TopicKey(ZERO_KEY, salt) := j]
      ensures true in flags ==>
                registeredJobs == [] && wakeups == old(wakeups) &&
                sent == SentTo(old(sent), FirstTrue(flags), [Stamped(j.pack)])
      ensures true !in flags ==>
                registeredJobs == Rotate(old(registeredJobs) + [j]) && wakeups == old(wakeups) + 1 &&
                sent == old(sent)
      ensures Valid()
    {
      var pack := Packet(Header(WORKER_PUSH_REQUEST, ZERO_KEY, sequence, salt, 0), body);
      j := new Job(pack, origin);
      registeredJobs := registeredJobs + [j];
      if KeyOf(pack.header) !in startedJobs {
        startedJobs := startedJobs[KeyOf(pack.header) := j];
      }
      SentNothing(sent, FirstTrue(flags));
      StartJobs();
      if true in flags {
        assert old(registeredJobs) + [j] == [j] && Packs([j]) == [Stamped(j.pack)];
      }
    }

    /** `add_worker`: the new worker may come anywhere in the iteration order, and everything that was
        waiting goes to it, since nothing waits while an old worker is valid. */
    method AddWorker() returns (w: Worker, pos: nat)
      requires Valid()
      modifies this`registeredJobs, this`workers, this`wakeups, this`flags, this`sent, workers
      ensures fresh(w) && w.valid && pos <= |old(workers)| && workers == Inserted(old(workers), pos, w)
      ensures flags == Inserted(old(flags), pos, true)
      ensures sent == Inserted(old(sent), pos, Packs(old(registeredJobs)))
      ensures registeredJobs == [] && wakeups == old(wakeups)
      ensures Valid()
    {
      w := new Worker();
      pos :| 0 <= pos <= |workers|;
      DrainToInserted(registeredJobs, flags, sent, pos);
      Emplace(w, pos);
      StartJobs();
    }

    method Emplace(w: Worker, pos: nat)
      requires Tied() && w !in workers && w.valid && w.written == [] && pos <= |workers|
      modifies this`workers, this`flags, this`sent
      ensures Tied() && workers == Inserted(old(workers), pos, w)
      ensures flags == Inserted(old(flags), pos, true) && sent == Inserted(old(sent), pos, [])
    {
      InsertedDistinct(workers, pos, w);
      workers := Inserted(workers, pos, w);
      flags, sent := Inserted(flags, pos, true), Inserted(sent, pos, []);
    }

    /** A worker deregisters, or a header read on its connection fails. */
    method Invalidate(i: nat)
      requires Valid() && i < |workers|
      modifies this`flags, workers[i]
      ensures flags == old(flags)[i := false] && Valid()
    {
      workers[i].valid := false;
      flags := flags[i := false];
    }

    /** The job objects that a handler may change: the one under the echoed key, if there is one. */
    ghost function Found(p: Packet): set<Job>
      reads this`startedJobs
    {
      if KeyOf(p.header) in startedJobs then {startedJobs[KeyOf(p.header)]} else {}
    }

    /** The handler that `on_worker_ack` posts. The previous state is not looked at. A key that is not in the map
        makes it dereference a null pointer. */
    method RunAck(p: Packet) returns (crashed: bool)
      modifies Found(p)
      ensures crashed <==> KeyOf(p.header) !in startedJobs
      ensures !crashed ==> startedJobs[KeyOf(p.header)].state == Started
    {
      if KeyOf(p.header) !in startedJobs {
        return true;
      }
      var j := startedJobs[KeyOf(p.header)];
      j.state := Started;
      crashed := false;
    }

    /** The handler that `on_worker_response` posts: the callback fires first, then the job is done. A key that is
        not in the map makes it dereference a null pointer before anything else happens. */
    method RunResponse(p: Packet) returns (crashed: bool)
      modifies this`completions, Found(p)
      ensures crashed <==> KeyOf(p.header) !in startedJobs
      ensures crashed ==> completions == old(completions)
      ensures !crashed ==> startedJobs[KeyOf(p.header)].state == Finished
      ensures !crashed ==> completions == old(completions) + [Completion(startedJobs[KeyOf(p.header)].origin, p)]
    {
      if KeyOf(p.header) !in startedJobs {
        return true;
      }
      var j := startedJobs[KeyOf(p.header)];
      completions := completions + [Completion(j.origin, p)];
      j.state := Finished;
      crashed := false;
    }
  }

  lemma {:induction false} MorePacks(js: seq<Job>, n: nat)
    requires n < |js|
    ensures js[..n + 1] == js[..n] + [js[n]]
    ensures Packs(js[..n + 1]) == Packs(js[..n]) + [Stamped(js[n].pack)]
  {
    assert js[..n + 1] == js[..n] + [js[n]];
  }
}
