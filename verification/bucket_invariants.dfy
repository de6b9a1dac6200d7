/** What holds of a fine-grained bucket in every reachable state, at every step, and of its drains. */
module BucketInvariants {
  import opened Wire
  import opened KeyHash
  import opened BucketThreads

  function Messages(ds: seq<Delivery>): (r: seq<Message>)
    ensures |r| == |ds| && forall i :: 0 <= i < |ds| ==> r[i] == ds[i].message
  {
    seq(|ds|, i requires 0 <= i < |ds| => ds[i].message)
  }

  function Popped(ps: seq<HttpPost>): (r: seq<Message>)
    ensures |r| == |ps| && forall i :: 0 <= i < |ps| ==> r[i] == ps[i].popped
  {
    seq(|ps|, i requires 0 <= i < |ps| => ps[i].popped)
  }

  /** The message the strand has popped but not yet handed on. */
  function InHand(d: Drain): seq<Message> {
    if d.Firing? || d.Posting? then [d.message] else []
  }

  predicate IsTriggerTopic(s: State) {
    s.key.salt[3] == 0
  }

  predicate ForTopic(s: State, pc: Pc) {
    pc.Idle? || KeyOf(pc.p.header) == s.key
  }

  /** A thread between its push or connect and its post. */
  predicate AboutToPost(pc: Pc) {
    pc.Stored? || pc.Loaded?
  }

  ghost predicate DrainComing(s: State) {
    s.events != [] || !s.drain.Resting? || exists t :: t in s.threads && AboutToPost(s.threads[t])
  }

  /** Everything belongs to this topic, so a drain is of the kind its salt says. */
  ghost predicate KindInv(s: State) {
    && (forall t :: t in s.threads ==> ForTopic(s, s.threads[t]))
    && (forall i :: 0 <= i < |s.events| ==> KeyOf(s.events[i].header) == s.key)
    && (!s.drain.Resting? ==> KeyOf(s.drain.event.header) == s.key)
    && ((s.drain.PoppingForPost? || s.drain.Posting?) ==> IsTriggerTopic(s))
    && ((s.drain.TestListeners? || s.drain.TestQueue? || s.drain.Popping? || s.drain.Firing? || s.drain.Clearing?)
        ==> !IsTriggerTopic(s))
    && (IsTriggerTopic(s) ==> s.deliveries == [] && s.dropped == {})
    && (!IsTriggerTopic(s) ==> s.posts == [])
  }

  ghost predicate FlowInv(s: State) {
    && s.stored == (if IsTriggerTopic(s) then Popped(s.posts) else Messages(s.deliveries)) + InHand(s.drain) + s.queue
    && (forall i :: 0 <= i < |s.deliveries| ==> s.deliveries[i].to != {})
    && ((s.drain.TestQueue? || s.drain.Popping? || s.drain.Firing?) ==> s.listeners != {})
    && (s.drain.Popping? && s.drain.first ==> s.queue != [])
  }

  ghost predicate StuckInv(s: State) {
    s.queue != [] && (IsTriggerTopic(s) || s.listeners != {}) ==> DrainComing(s)
  }

  ghost predicate WaiterInv(s: State) {
    && s.connected == s.listeners + s.dropped
    && s.listeners !! s.dropped
    && s.served <= s.connected && s.late <= s.listeners
    && s.late !! s.served
    && s.listeners - s.late <= s.served
    && s.lost == s.dropped - s.served
    && (!s.drain.Resting? ==> s.atStart <= s.listeners)
    && ((s.drain.Popping? && !s.drain.first) || s.drain.Clearing? ==> s.atStart <= s.served)
  }

  /** The body of a packet that a handler was begun with. */
  predicate Begun(s: State, body: Message) {
    body in s.bodies || (s.asked && body == [])
  }

  /** Every body in the bucket is that of a store begun; every drain was posted by a store or a load. */
  ghost predicate BodyInv(s: State) {
    && (forall t :: t in s.threads && (s.threads[t].Storing? || s.threads[t].Stored?) ==> s.threads[t].p.data in s.bodies)
    && (forall t :: t in s.threads && !s.threads[t].Idle? ==> Begun(s, s.threads[t].p.data))
    && (forall i :: 0 <= i < |s.stored| ==> s.stored[i] in s.bodies)
    && (forall i :: 0 <= i < |s.events| ==> Begun(s, s.events[i].data))
    && (!s.drain.Resting? ==> Begun(s, s.drain.event.data))
    && (forall i :: 0 <= i < |s.posts| ==> Begun(s, s.posts[i].body))
  }

  /** A drain that may deliver. */
  predicate Delivering(d: Drain) {
    d.TestListeners? || d.TestQueue? || d.Popping? || d.Firing? || d.Clearing?
  }

  /** What was queued when the drain began is delivered first, to everybody who waited then; and when the slots are
      about to be cleared, all of it has been. */
  ghost predicate DeliveryInv(s: State) {
    && s.mark <= |s.deliveries|
    && (Delivering(s.drain) ==> s.pending <= Messages(s.deliveries[s.mark..]) + (InHand(s.drain) + s.queue))
    && (s.drain.Clearing? ==> s.pending <= Messages(s.deliveries[s.mark..]))
    && (Delivering(s.drain) ==> forall d :: s.mark <= d < |s.deliveries| ==> s.atStart <= s.deliveries[d].to)
  }

  ghost predicate Inv(s: State) {
    KindInv(s) && FlowInv(s) && StuckInv(s) && WaiterInv(s) && BodyInv(s) && DeliveryInv(s)
  }

  lemma {:induction false} FireKeepsDelivery(s: State)
    requires DeliveryInv(s) && WaiterInv(s) && s.drain.Firing?
    ensures DeliveryInv(ApplyDrain(s))
  {
    var d := Delivery(s.drain.message, s.listeners);
    var u := ApplyDrain(s);
    assert u.deliveries[u.mark..] == s.deliveries[s.mark..] + [d];
    MoreDeliveries(s.deliveries[s.mark..], d);
    assert (Messages(s.deliveries[s.mark..]) + [d.message]) + s.queue == Messages(s.deliveries[s.mark..]) + ([d.message] + s.queue);
  }

  lemma {:induction false} PopKeepsDelivery(s: State)
    requires DeliveryInv(s) && s.drain.Popping?
    ensures DeliveryInv(ApplyDrain(s))
  {
    if s.queue == [] {
      assert Messages(s.deliveries[s.mark..]) + ([] + s.queue) == Messages(s.deliveries[s.mark..]);
    } else {
      assert [s.queue[0]] + s.queue[1..] == [] + s.queue;
    }
  }

  lemma {:induction false} DrainKeepsDelivery(s: State)
    requires DeliveryInv(s) && WaiterInv(s) && !s.drain.Resting?
    ensures DeliveryInv(ApplyDrain(s))
  {
    if s.drain.Firing? {
      FireKeepsDelivery(s);
    } else if s.drain.Popping? {
      PopKeepsDelivery(s);
    } else {
      hide WaiterInv;
    }
  }

  /** Threads add to the queue at its end. */
  lemma {:induction false} QueueGrows(s: State, u: State)
    requires DeliveryInv(s) && s.queue <= u.queue
    requires u.drain == s.drain && u.deliveries == s.deliveries && u.mark == s.mark && u.pending == s.pending
    requires u.atStart == s.atStart
    ensures DeliveryInv(u)
  {
    var was := Messages(s.deliveries[s.mark..]) + (InHand(s.drain) + s.queue);
    var now := Messages(u.deliveries[u.mark..]) + (InHand(u.drain) + u.queue);
    assert now[..|was|] == was;
  }

  lemma {:induction false} BeginKeepsDelivery(s: State, i: nat)
    requires Enabled(s, StartDrain(i))
    ensures DeliveryInv(Apply(s, StartDrain(i)))
  {
    var u := Apply(s, StartDrain(i));
    assert u.deliveries[u.mark..] == [] && Messages([]) == [];
    assert Messages(u.deliveries[u.mark..]) + (InHand(u.drain) + u.queue) == s.queue;
  }

  lemma {:induction false} StepKeepsDelivery(s: State, a: Step)
    requires DeliveryInv(s) && WaiterInv(s) && Enabled(s, a)
    ensures DeliveryInv(Apply(s, a))
  {
    hide ApplyDrain, WaiterInv, DeliveryInv;
    if a.DrainStep? {
      DrainKeepsDelivery(s);
    } else if a.StartDrain? {
      BeginKeepsDelivery(s, a.i);
    } else {
      QueueGrows(s, Apply(s, a));
    }
  }

  lemma {:induction false} DrainKeepsBodies(s: State)
    requires BodyInv(s) && !s.drain.Resting?
    ensures BodyInv(ApplyDrain(s))
  {
    hide IsTriggerTopic, KeyOf;
    var u := ApplyDrain(s);
    assert u.threads == s.threads && u.stored == s.stored && u.events == s.events && u.bodies == s.bodies && u.asked == s.asked;
    assert !u.drain.Resting? ==> u.drain.event == s.drain.event;
    assert u.posts == s.posts || (s.drain.Posting? && u.posts == s.posts + [HttpPost(s.drain.event.data, s.drain.message)]);
    hide ApplyDrain;
  }

  /** A thread goes on to `pc`, and perhaps a body was begun with. */
  lemma {:induction false} ThreadKeepsBodies(s: State, u: State, t: Thread, pc: Pc)
    requires BodyInv(s) && t in s.threads && u.threads == s.threads[t := pc]
    requires u.drain == s.drain && u.posts == s.posts && s.bodies <= u.bodies && (s.asked ==> u.asked)
    requires !pc.Idle? ==> Begun(u, pc.p.data) && (pc.Storing? || pc.Stored? ==> pc.p.data in u.bodies)
    requires forall i :: 0 <= i < |u.stored| ==> u.stored[i] in u.bodies
    requires forall i :: 0 <= i < |u.events| ==> Begun(u, u.events[i].data)
    ensures BodyInv(u)
  {
  }

  lemma {:induction false} StepKeepsBodies(s: State, a: Step)
    requires BodyInv(s) && Enabled(s, a)
    ensures BodyInv(Apply(s, a))
  {
    hide ApplyDrain;
    var u := Apply(s, a);
    match a
    case DrainStep => DrainKeepsBodies(s);
    case StartDrain(i) =>
    case BeginStore(t, p) => ThreadKeepsBodies(s, u, t, Storing(p));
    case Push(t) => ThreadKeepsBodies(s, u, t, Stored(s.threads[t].p));
    case BeginLoad(t, w, p) => ThreadKeepsBodies(s, u, t, Loading(w, p));
    case Connect(t) => ThreadKeepsBodies(s, u, t, Loaded(s.threads[t].p));
    case PostDrain(t) => ThreadKeepsBodies(s, u, t, Idle);
  }

  lemma {:induction false} DrainKeepsKind(s: State)
    requires KindInv(s) && !s.drain.Resting?
    ensures KindInv(ApplyDrain(s))
  {
  }

  lemma {:induction false} StepKeepsKind(s: State, a: Step)
    requires KindInv(s) && Enabled(s, a)
    ensures KindInv(Apply(s, a))
  {
    if a.DrainStep? {
      DrainKeepsKind(s);
    }
  }

  lemma {:induction false} MoreDeliveries(ds: seq<Delivery>, d: Delivery)
    ensures Messages(ds + [d]) == Messages(ds) + [d.message]
  {
  }

  lemma {:induction false} MorePosts(ps: seq<HttpPost>, p: HttpPost)
    ensures Popped(ps + [p]) == Popped(ps) + [p.popped]
  {
  }

  lemma {:induction false} PopMovesHead(front: seq<Message>, q: seq<Message>)
    requires q != []
    ensures front + [] + q == front + [q[0]] + q[1..]
  {
    assert q == [q[0]] + q[1..];
  }

  lemma {:induction false} DrainKeepsFlow(s: State)
    requires KindInv(s) && FlowInv(s) && !s.drain.Resting?
    ensures FlowInv(ApplyDrain(s))
  {
    match s.drain
    case Firing(e, m) => MoreDeliveries(s.deliveries, Delivery(m, s.listeners));
    case Posting(e, m) => MorePosts(s.posts, HttpPost(e.data, m));
    case Popping(e, _) =>
      if s.queue != [] {
        PopMovesHead(Messages(s.deliveries), s.queue);
      }
    case PoppingForPost(e) =>
      if s.queue != [] {
        PopMovesHead(Popped(s.posts), s.queue);
      }
    case _ =>
  }

  lemma {:induction false} StepKeepsFlow(s: State, a: Step)
    requires KindInv(s) && FlowInv(s) && Enabled(s, a)
    ensures FlowInv(Apply(s, a))
  {
    if a.DrainStep? {
      DrainKeepsFlow(s);
    }
  }

  lemma {:induction false} StepKeepsStuck(s: State, a: Step)
    requires KindInv(s) && StuckInv(s) && Enabled(s, a)
    ensures StuckInv(Apply(s, a))
  {
    var u := Apply(s, a);
    if a.Push? || a.Connect? {
      assert a.t in u.threads && AboutToPost(u.threads[a.t]);
    } else if a.BeginStore? || a.BeginLoad? {
      assert forall t :: t in s.threads && AboutToPost(s.threads[t]) ==> t != a.t && u.threads[t] == s.threads[t];
    }
  }

  lemma {:induction false} DrainKeepsWaiters(s: State)
    requires FlowInv(s) && WaiterInv(s) && !s.drain.Resting?
    ensures WaiterInv(ApplyDrain(s))
  {
  }

  lemma {:induction false} StepKeepsWaiters(s: State, a: Step)
    requires FlowInv(s) && WaiterInv(s) && Enabled(s, a)
    ensures WaiterInv(Apply(s, a))
  {
    if a.DrainStep? {
      DrainKeepsWaiters(s);
    }
  }

  lemma {:induction false} RunKeepsInv(s: State, steps: seq<Step>)
    requires Inv(s) && IsRun(s, steps)
    ensures Inv(After(s, steps)) && After(s, steps).key == s.key
    decreases |steps|
  {
    if steps != [] {
      StepKeepsKind(s, steps[0]);
      StepKeepsFlow(s, steps[0]);
      StepKeepsStuck(s, steps[0]);
      StepKeepsWaiters(s, steps[0]);
      StepKeepsBodies(s, steps[0]);
      StepKeepsDelivery(s, steps[0]);
      RunKeepsInv(Apply(s, steps[0]), steps[1..]);
    }
  }

  lemma {:induction false} ReachableInv(s: State)
    requires Reachable(s)
    ensures Inv(s)
  {
    var key, threads, steps :| IsRun(Init(key, threads), steps) && s == After(Init(key, threads), steps);
    var s0 := Init(key, threads);
    assert Messages([]) == [] && Popped([]) == [];
    RunKeepsInv(s0, steps);
  }

  /** A listener topic loses, duplicates and reorders nothing: what was stored is what was delivered,
      the message in hand, and the queue, in this order; and every delivery reached somebody. */
  lemma {:induction false} BrokerOrder(s: State)
    requires Reachable(s) && !IsTriggerTopic(s)
    ensures s.stored == Messages(s.deliveries) + InHand(s.drain) + s.queue
    ensures forall i :: 0 <= i < |s.deliveries| ==> s.deliveries[i].to != {}
    ensures s.posts == []
  {
    ReachableInv(s);
  }

  /** A listener topic with messages and listeners always has a drain queued, running, or about to be
      posted. */
  lemma {:induction false} NoStuckDelivery(s: State)
    requires Reachable(s) && !IsTriggerTopic(s) && s.queue != [] && s.listeners != {}
    ensures DrainComing(s)
  {
    ReachableInv(s);
  }

  /** A trigger topic never becomes a listener topic; its posts are one for one with the messages
      popped, in order; and when nothing is left to run, every message stored was posted for. */
  lemma {:induction false} TriggerTopicCounts(s: State)
    requires Reachable(s) && IsTriggerTopic(s)
    ensures s.stored == Popped(s.posts) + InHand(s.drain) + s.queue
    ensures |s.posts| + |InHand(s.drain)| + |s.queue| == |s.stored|
    ensures s.deliveries == []
    ensures !DrainComing(s) ==> |s.posts| == |s.stored|
  {
    ReachableInv(s);
  }

  /** What becomes of a get. A waiter that was connected when a drain began is served before that drain
      clears the slots. A waiter is dropped without a message exactly when it connected after the last
      delivery of the drain that cleared it. */
  lemma {:induction false} WaiterFate(s: State)
    requires Reachable(s)
    ensures s.connected == s.listeners + s.dropped && s.listeners !! s.dropped
    ensures s.drain.Clearing? ==> s.atStart <= s.served
    ensures s.drain.Clearing? ==> forall w :: w in s.listeners ==> (w in s.served <==> w !in s.late)
    ensures s.dropped - s.served == s.lost
  {
    ReachableInv(s);
  }

  /** When the slots are about to be cleared, every message that was queued when the drain began has been delivered
      by it, in order, to everybody who waited when it began. */
  lemma {:induction false} DrainDeliversAll(s: State, i: nat)
    requires Reachable(s) && s.drain.Clearing? && i < |s.pending|
    ensures s.mark + i < |s.deliveries| && s.deliveries[s.mark + i].message == s.pending[i]
    ensures s.atStart <= s.deliveries[s.mark + i].to
  {
    ReachableInv(s);
    hide Reachable;
    assert s.pending[i] == Messages(s.deliveries[s.mark..])[i];
  }

  /** The drain, step by step: slots are cleared, all of them, only behind a pop of the same drain that saw the queue
      empty; a delivery hands the message in hand to everybody connected at that moment, and is followed by another
      pop; a pop takes the oldest message in hand; and a drain begins with what is queued and who waits then. */
  lemma {:induction false} DrainSteps(s: State, a: Step)
    requires Enabled(s, a)
    ensures !(s.listeners <= Apply(s, a).listeners) ==> s.drain.Clearing? && Apply(s, a).listeners == {}
    ensures Apply(s, a).drain.Clearing? ==> s.drain.Clearing? || (s.drain.Popping? && s.queue == [])
    ensures Apply(s, a).deliveries != s.deliveries ==>
              s.drain.Firing? && Apply(s, a).drain.Popping? &&
              Apply(s, a).deliveries == s.deliveries + [Delivery(s.drain.message, s.listeners)]
    ensures Apply(s, a).posts != s.posts ==>
              s.drain.Posting? && Apply(s, a).drain.PoppingForPost? &&
              Apply(s, a).posts == s.posts + [HttpPost(s.drain.event.data, s.drain.message)]
    ensures s.queue <= Apply(s, a).queue ||
              (Apply(s, a).queue == s.queue[1..] && InHand(Apply(s, a).drain) == [s.queue[0]])
    ensures a.StartDrain? ==>
              Apply(s, a).pending == s.queue && Apply(s, a).atStart == s.listeners && Apply(s, a).mark == |s.deliveries|
    ensures a.DrainStep? && Apply(s, a).drain.Resting? ==>
              s.drain.Clearing? || (s.drain.TestListeners? && s.listeners == {}) ||
              (s.queue == [] && (s.drain.TestQueue? || s.drain.PoppingForPost?))
  {
    if a.DrainStep? {
      DrainStepsHere(s);
    }
    hide ApplyDrain;
  }

  lemma {:induction false} DrainStepsHere(s: State)
    requires !s.drain.Resting?
    ensures var u := ApplyDrain(s);
      && (!(s.listeners <= u.listeners) ==> s.drain.Clearing? && u.listeners == {})
      && (u.drain.Clearing? ==> s.drain.Popping? && s.queue == [])
      && (u.deliveries != s.deliveries ==>
            s.drain.Firing? && u.drain.Popping? && u.deliveries == s.deliveries + [Delivery(s.drain.message, s.listeners)])
      && (u.posts != s.posts ==>
            s.drain.Posting? && u.drain.PoppingForPost? &&
            u.posts == s.posts + [HttpPost(s.drain.event.data, s.drain.message)])
      && (s.queue <= u.queue || (u.queue == s.queue[1..] && InHand(u.drain) == [s.queue[0]]))
      && (u.drain.Resting? ==>
            s.drain.Clearing? || (s.drain.TestListeners? && s.listeners == {}) ||
            (s.queue == [] && (s.drain.TestQueue? || s.drain.PoppingForPost?)))
  {
  }

  /** Nothing gets stuck: a thread inside a handler, a drain that runs, and, while none runs, any drain that was posted
      can take a step; and an idle thread can begin to store anything. */
  lemma {:induction false} NothingStuck(s: State, t: Thread, i: nat, p: Packet)
    requires t in s.threads && KeyOf(p.header) == s.key
    ensures s.threads[t].Idle? ==> Enabled(s, BeginStore(t, p))
    ensures s.threads[t].Idle? && p.data == [] ==> forall w :: w !in s.connected ==> Enabled(s, BeginLoad(t, w, p))
    ensures s.threads[t].Storing? ==> Enabled(s, Push(t))
    ensures s.threads[t].Loading? && s.threads[t].w !in s.connected ==> Enabled(s, Connect(t))
    ensures s.threads[t].Stored? || s.threads[t].Loaded? ==> Enabled(s, PostDrain(t))
    ensures !s.drain.Resting? ==> Enabled(s, DrainStep)
    ensures s.drain.Resting? && i < |s.events| ==> Enabled(s, StartDrain(i))
  {
  }

  /** Every post carries the message it was popped for. */
  predicate PostsRight(s: State) {
    forall i :: 0 <= i < |s.posts| ==> s.posts[i].body == s.posts[i].popped
  }

  /** All the bodies that may be stored are the same, and empty if there are gets as well, whose drains carry
      an empty body. */
  ghost predicate OneBody(bodies: set<Message>, gets: bool) {
    && (forall x, y :: x in bodies && y in bodies ==> x == y)
    && (gets ==> forall x :: x in bodies ==> x == [])
  }

  /** If all stores of a trigger topic carry one body, empty if there are gets as well, every post is right. */
  lemma {:induction false} OneBodyPostsRight(s: State)
    requires Reachable(s) && IsTriggerTopic(s) && OneBody(s.bodies, s.asked)
    ensures PostsRight(s)
  {
    ReachableInv(s);
    hide Reachable;
    assert s.stored == Popped(s.posts) + InHand(s.drain) + s.queue;
    forall i | 0 <= i < |s.posts|
      ensures s.posts[i].body == s.posts[i].popped
    {
      assert s.stored[i] == s.posts[i].popped;
      assert Begun(s, s.posts[i].body);
    }
  }
}
