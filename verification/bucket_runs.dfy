/** Runs of a fine-grained bucket: what does happen, and for which bodies a trigger topic always posts right. */
module BucketRuns {
  import opened Wire
  import opened KeyHash
  import opened BucketThreads
  import opened BucketInvariants

  lemma {:induction false} Extend(s: State, steps: seq<Step>, a: Step)
    requires IsRun(s, steps) && Enabled(After(s, steps), a)
    ensures IsRun(s, steps + [a]) && After(s, steps + [a]) == Apply(After(s, steps), a)
    decreases |steps|
  {
    if steps == [] {
      assert steps + [a] == [a] && [a][1..] == [];
    } else {
      Extend(Apply(s, steps[0]), steps[1..], a);
      assert (steps + [a])[0] == steps[0] && (steps + [a])[1..] == steps[1..] + [a];
    }
  }

  lemma {:induction false} Do(s: State, a: Step) returns (u: State)
    requires Reachable(s) && Enabled(s, a)
    ensures u == Apply(s, a) && Reachable(u)
  {
    var key, threads, steps :| IsRun(Init(key, threads), steps) && s == After(Init(key, threads), steps);
    Extend(Init(key, threads), steps, a);
    u := Apply(s, a);
  }

  lemma {:induction false} Start(key: TopicKey, threads: set<Thread>) returns (s: State)
    ensures s == Init(key, threads) && Reachable(s)
  {
    s := Init(key, threads);
    assert IsRun(s, []) && s == After(s, []);
  }

  /** A store handler from its first step to its post. */
  lemma {:induction false} DoStore(s: State, t: Thread, p: Packet) returns (u: State)
    requires Reachable(s) && Enabled(s, BeginStore(t, p))
    ensures Reachable(u)
    ensures u == s.(threads := s.threads[t := Idle], queue := s.queue + [p.data], stored := s.stored + [p.data],
                    events := s.events + [p], bodies := s.bodies + {p.data})
  {
    hide Reachable;
    u := Do(s, BeginStore(t, p));
    assert At(u, t) == Storing(p);
    u := Do(u, Push(t));
    assert At(u, t) == Stored(p);
    u := Do(u, PostDrain(t));
    assert u.threads == s.threads[t := Idle];
  }

  /** A load handler from its first step to its post. */
  lemma {:induction false} DoLoad(s: State, t: Thread, w: Waiter, p: Packet) returns (u: State)
    requires Reachable(s) && Enabled(s, BeginLoad(t, w, p))
    ensures Reachable(u)
    ensures u == s.(threads := s.threads[t := Idle], listeners := s.listeners + {w}, connected := s.connected + {w},
                    late := s.late + {w}, events := s.events + [p], asked := true)
  {
    hide Reachable;
    u := Do(s, BeginLoad(t, w, p));
    assert At(u, t) == Loading(w, p);
    u := Do(u, Connect(t));
    assert At(u, t) == Loaded(p);
    u := Do(u, PostDrain(t));
    assert u.threads == s.threads[t := Idle];
  }

  /** A pending drain starts. */
  lemma {:induction false} DoStart(s: State, i: nat) returns (u: State)
    requires Reachable(s) && s.drain.Resting? && i < |s.events|
    ensures Reachable(u)
    ensures u == s.(events := s.events[..i] + s.events[i + 1..], atStart := s.listeners, pending := s.queue,
                    mark := |s.deliveries|,
                    drain := if s.events[i].header.IsTrigger() then PoppingForPost(s.events[i])
                             else TestListeners(s.events[i]))
  {
    hide Reachable;
    u := Do(s, StartDrain(i));
  }

  /** A drain that delivers the one queued message, up to the point where it will clear the slots. */
  lemma {:induction false} DeliverOne(s: State, e: Packet, m: Message) returns (u: State)
    requires Reachable(s) && !e.header.IsTrigger()
    requires s.drain == TestListeners(e) && s.queue == [m] && s.listeners != {}
    ensures Reachable(u)
    ensures u == s.(drain := Clearing(e), queue := [], deliveries := s.deliveries + [Delivery(m, s.listeners)],
                    served := s.served + s.listeners, late := {})
  {
    hide Reachable;
    u := Do(s, DrainStep);
    u := Do(u, DrainStep);
    u := Do(u, DrainStep);
    assert u.queue == [] && u.drain == Firing(e, m);
    u := Do(u, DrainStep);
    u := Do(u, DrainStep);
  }

  /** A trigger drain pops the next message and posts its own body. */
  lemma {:induction false} PostOne(s: State, e: Packet) returns (u: State)
    requires Reachable(s) && s.drain == PoppingForPost(e) && s.queue != []
    ensures Reachable(u)
    ensures u == s.(queue := s.queue[1..], posts := s.posts + [HttpPost(e.data, s.queue[0])])
  {
    hide Reachable;
    u := Do(s, DrainStep);
    assert u.drain == Posting(e, s.queue[0]) && u.queue == s.queue[1..];
    u := Do(u, DrainStep);
  }

  /** The packet of a get of the same topic. */
  function GetOf(p: Packet): Packet {
    Packet(p.header.(typ := GET), [])
  }

  lemma {:induction false} GetOfSame(p: Packet)
    ensures KeyOf(GetOf(p).header) == KeyOf(p.header) && GetOf(p).data == []
    ensures GetOf(p).header.IsTrigger() == p.header.IsTrigger()
  {
  }

  /** One message stored, one get waiting, and both drains posted. */
  lemma {:induction false} StoreAndGet(p: Packet) returns (s: State)
    ensures Reachable(s)
    ensures s == Init(KeyOf(p.header), {0}).(queue := [p.data], stored := [p.data], events := [p, GetOf(p)],
                   listeners := {1}, connected := {1}, late := {1}, bodies := {p.data}, asked := true)
  {
    hide Reachable;
    GetOfSame(p);
    hide KeyOf, GetOf;
    s := Start(KeyOf(p.header), {0});
    s := DoStore(s, 0, p);
    s := DoLoad(s, 0, 1, GetOf(p));
    assert s.threads == Init(KeyOf(p.header), {0}).threads;
    assert s.events == [p, GetOf(p)] && s.queue == [p.data] && s.stored == [p.data];
  }

  /** One message stored, one get waiting, and the store's drain about to test. */
  lemma {:induction false} OneMessageOneWaiter(p: Packet) returns (s: State)
    requires !p.header.IsTrigger()
    ensures Reachable(s) && s.key == KeyOf(p.header) && s.threads == map[0 := Idle]
    ensures s.drain == TestListeners(p) && s.queue == [p.data] && s.listeners == s.connected == {1}
  {
    hide Reachable;
    s := StoreAndGet(p);
    s := DoStart(s, 0);
    assert s.threads == map[0 := Idle];
  }

  /** "Every get is eventually answered" is false: the second get connects after the last pop and before
      the slots are cleared, and is gone without a message. */
  lemma {:induction false} SomeGetIsLost(p: Packet) returns (s: State)
    requires !p.header.IsTrigger()
    ensures Reachable(s) && s.key == KeyOf(p.header)
    ensures 2 in s.connected && 2 !in s.listeners && 2 !in s.served && 2 in s.lost
  {
    hide Reachable;
    GetOfSame(p);
    var waiting := OneMessageOneWaiter(p);
    ReachableInv(waiting);
    hide KindInv, FlowInv, StuckInv, BodyInv;
    var clearing := DeliverOne(waiting, p, p.data);
    hide KeyOf, GetOf;
    var late := DoLoad(clearing, 0, 2, GetOf(p));
    s := Do(late, DrainStep);
  }

  /** Two stores to a trigger topic before the first drain starts. */
  lemma {:induction false} TwoStoresBeforeDrain(p: Packet, q: Packet) returns (s: State)
    requires KeyOf(p.header) == KeyOf(q.header) && p.header.IsTrigger()
    ensures Reachable(s) && s.key == KeyOf(p.header) && s.threads == map[0 := Idle]
    ensures s.drain == PoppingForPost(p) && s.queue == s.stored == [p.data, q.data]
    ensures s.events == [q] && s.posts == [] && s.bodies == {p.data, q.data} && !s.asked
  {
    hide Reachable, KeyOf;
    s := Start(KeyOf(p.header), {0});
    s := DoStore(s, 0, p);
    s := DoStore(s, 0, q);
    assert s.events == [p, q] && s.queue == s.stored == [p.data, q.data];
    s := DoStart(s, 0);
    assert s.threads == map[0 := Idle];
  }

  /** On a trigger topic the body that is posted need not be that of any message popped with it: the
      first store's drain pops both messages and posts its own body twice. */
  lemma {:induction false} SomeBodyIsNeverPosted(p: Packet, q: Packet) returns (s: State)
    requires KeyOf(p.header) == KeyOf(q.header) && p.header.IsTrigger()
    ensures Reachable(s) && IsTriggerTopic(s) && !DrainComing(s) && s.key == KeyOf(p.header)
    ensures s.stored == [p.data, q.data] && s.bodies == {p.data, q.data} && !s.asked
    ensures s.posts == [HttpPost(p.data, p.data), HttpPost(p.data, q.data)]
    ensures p.data != q.data ==> !PostsRight(s)
  {
    hide Reachable;
    var two := TwoStoresBeforeDrain(p, q);
    var one := PostOne(two, p);
    assert one.queue == [q.data];
    var none := PostOne(one, p);
    assert none.queue == [] && none.posts == [HttpPost(p.data, p.data), HttpPost(p.data, q.data)];
    var rested := Do(none, DrainStep);
    var again := DoStart(rested, 0);
    assert again.events == [];
    s := Do(again, DrainStep);
    assert s.posts[1] == HttpPost(p.data, q.data);
  }

  /** The drain of a get pops a stored message and posts an empty body. */
  lemma {:induction false} GetPostsNothing(p: Packet) returns (s: State)
    requires p.header.IsTrigger()
    ensures Reachable(s) && s.key == KeyOf(p.header) && s.bodies == {p.data} && s.posts == [HttpPost([], p.data)]
  {
    hide Reachable;
    GetOfSame(p);
    s := StoreAndGet(p);
    s := DoStart(s, 1);
    s := PostOne(s, GetOf(p));
  }

  function PutOf(key: TopicKey, body: Message): Packet {
    Packet(Header(PUT, key.key, [0, 0, 0, 0], key.salt, 0), body)
  }

  ghost predicate AlwaysRight(key: TopicKey, bodies: set<Message>, gets: bool) {
    forall s :: Reachable(s) && s.key == key && s.bodies <= bodies && (s.asked ==> gets) ==> PostsRight(s)
  }

  /** A trigger topic posts right in all runs whose stores carry only the given bodies if and only if those bodies
      are all the same, and empty if gets come as well. */
  lemma {:induction false} PostsRightIff(key: TopicKey, bodies: set<Message>, gets: bool)
    requires key.salt[3] == 0
    ensures AlwaysRight(key, bodies, gets) <==> OneBody(bodies, gets)
  {
    hide Reachable, PostsRight;
    if OneBody(bodies, gets) {
      forall s | Reachable(s) && s.key == key && s.bodies <= bodies && (s.asked ==> gets)
        ensures PostsRight(s)
      {
        OneBodyPostsRight(s);
      }
    } else if x, y :| x in bodies && y in bodies && x != y {
      var s := SomeBodyIsNeverPosted(PutOf(key, x), PutOf(key, y));
      assert s.bodies == {x, y} && s.key == key;
    } else {
      var x :| x in bodies && x != [];
      var s := GetPostsNothing(PutOf(key, x));
      PostedNothing(s, x);
      assert s.bodies == {x} && s.key == key;
    }
  }

  lemma {:induction false} PostedNothing(s: State, x: Message)
    requires s.posts == [HttpPost([], x)] && x != []
    ensures !PostsRight(s)
  {
    assert s.posts[0].body != s.posts[0].popped;
  }
}
