/** One topic `bucket` of main.cpp under all interleavings.

    Fine-grained: every queue, signal and post operation of `start_store`, `start_load` and
    `start_handle_events` is one step, on any number of io threads. The strand runs one drain at a
    time; which pending drain starts next is left open, since each is posted to the io context first
    and only then bound to the strand.
 */
module BucketThreads {
  import opened Wire
  import opened KeyHash

  type Thread = nat
  type Message = seq<byte>

  /** One `connect` call; two gets of one connection are two waiters. */
  type Waiter = nat

  datatype Pc =
    | Idle
    | Storing(p: Packet)            // before push_message
    | Stored(p: Packet)             // pushed, before posting the drain
    | Loading(w: Waiter, p: Packet) // before listener_.connect
    | Loaded(p: Packet)             // connected, before posting the drain

  /** The position of the strand inside `start_handle_events`, with the packet that posted the drain. */
  datatype Drain =
    | Resting
    | TestListeners(event: Packet)
    | TestQueue(event: Packet)
    | Popping(event: Packet, first: bool)
    | Firing(event: Packet, message: Message)
    | Clearing(event: Packet)
    | PoppingForPost(event: Packet)
    | Posting(event: Packet, message: Message)

  datatype Delivery = Delivery(message: Message, to: set<Waiter>)

  /** A request posted to the bound url: its body is that of the packet that ran the drain. */
  datatype HttpPost = HttpPost(body: seq<byte>, popped: Message)

  datatype State = State(
    key: TopicKey,
    threads: map<Thread, Pc>,
    queue: seq<Message>,
    listeners: set<Waiter>,
    events: seq<Packet>,
    drain: Drain,
    // History of the run.
    stored: seq<Message>,
    deliveries: seq<Delivery>,
    posts: seq<HttpPost>,
    connected: set<Waiter>,
    served: set<Waiter>,
    dropped: set<Waiter>,
    // Listeners when the current drain began; listeners connected since the last delivery; and those
    // that were in the second set when the slots were cleared.
    atStart: set<Waiter>,
    late: set<Waiter>,
    lost: set<Waiter>,
    // The bodies of the stores begun so far, and whether a load was begun.
    bodies: set<Message>,
    asked: bool,
    // The messages queued when the current drain began, and how many deliveries there had been.
    pending: seq<Message>,
    mark: nat)

  datatype Step =
    | BeginStore(t: Thread, p: Packet)
    | Push(t: Thread)
    | BeginLoad(t: Thread, w: Waiter, p: Packet)
    | Connect(t: Thread)
    | PostDrain(t: Thread)
    | StartDrain(i: nat)
    | DrainStep

  function Init(key: TopicKey, threads: set<Thread>): State {
    State(key, map t | t in threads :: Idle, [], {}, [], Resting, [], [], [], {}, {}, {}, {}, {}, {}, {}, false, [], 0)
  }

  function At(s: State, t: Thread): Pc {
    if t in s.threads then s.threads[t] else Idle
  }

  predicate Enabled(s: State, a: Step) {
    match a
    case BeginStore(t, p) => t in s.threads && At(s, t).Idle? && KeyOf(p.header) == s.key
    case Push(t) => At(s, t).Storing?
    case BeginLoad(t, w, p) =>
      // Nothing is read behind the header of a get.
      t in s.threads && At(s, t).Idle? && KeyOf(p.header) == s.key && w !in s.connected && p.data == []
    case Connect(t) => At(s, t).Loading? && At(s, t).w !in s.connected
    case PostDrain(t) => At(s, t).Stored? || At(s, t).Loaded?
    case StartDrain(i) => s.drain.Resting? && i < |s.events|
    case DrainStep => !s.drain.Resting?
  }

  function Goto(s: State, t: Thread, pc: Pc): State {
    s.(threads := s.threads[t := pc])
  }

  function Apply(s: State, a: Step): State
    requires Enabled(s, a)
  {
    match a
    case BeginStore(t, p) => Goto(s, t, Storing(p)).(bodies := s.bodies + {p.data})
    case Push(t) =>
      var p := At(s, t).p;
      Goto(s, t, Stored(p)).(queue := s.queue + [p.data], stored := s.stored + [p.data])
    case BeginLoad(t, w, p) => Goto(s, t, Loading(w, p)).(asked := true)
    case Connect(t) =>
      var w := At(s, t).w;
      Goto(s, t, Loaded(At(s, t).p))
      .(listeners := s.listeners + {w}, connected := s.connected + {w}, late := s.late + {w})
    case PostDrain(t) => Goto(s, t, Idle).(events := s.events + [At(s, t).p])
    case StartDrain(i) =>
      var e := s.events[i];
      s.(events := s.events[..i] + s.events[i + 1..], atStart := s.listeners, pending := s.queue, mark := |s.deliveries|,
         drain := if e.header.IsTrigger() then PoppingForPost(e) else TestListeners(e))
    case DrainStep => ApplyDrain(s)
  }

  function ApplyDrain(s: State): State
    requires !s.drain.Resting?
  {
    match s.drain
    case TestListeners(e) => s.(drain := if s.listeners == {} then Resting else TestQueue(e))
    case TestQueue(e) => s.(drain := if s.queue == [] then Resting else Popping(e, true))
    case Popping(e, _) =>
      if s.queue == [] then s.(drain := Clearing(e))
      else s.(drain := Firing(e, s.queue[0]), queue := s.queue[1..])
    case Firing(e, m) =>
      s.(drain := Popping(e, false), deliveries := s.deliveries + [Delivery(m, s.listeners)],
         served := s.served + s.listeners, late := {})
    case Clearing(e) =>
      s.(drain := Resting, listeners := {}, dropped := s.dropped + s.listeners,
         lost := s.lost + s.late, late := {})
    case PoppingForPost(e) =>
      if s.queue == [] then s.(drain := Resting)
      else s.(drain := Posting(e, s.queue[0]), queue := s.queue[1..])
    case Posting(e, m) =>
      s.(drain := PoppingForPost(e), posts := s.posts + [HttpPost(e.data, m)])
  }

  predicate IsRun(s: State, steps: seq<Step>)
    decreases |steps|
  {
    steps == [] || (Enabled(s, steps[0]) && IsRun(Apply(s, steps[0]), steps[1..]))
  }

  function After(s: State, steps: seq<Step>): State
    requires IsRun(s, steps)
    decreases |steps|
  {
    if steps == [] then s else After(Apply(s, steps[0]), steps[1..])
  }

  ghost predicate Reachable(s: State) {
    exists key, threads, steps :: IsRun(Init(key, threads), steps) && s == After(Init(key, threads), steps)
  }
}
