/** The whole server on the trigger path: connections, launcher and workers.

    Handler-atomic: every completion handler, posted handler or strand handler is one step. Every connection
    is read byte by byte from what has arrived on it, by the client's reader until it registers as a worker
    and by the worker's reader from then on; one `start_write` is one atomic append of a frame. The broker
    appears only through the frames that it may write at any time.
 */
module Server {
  import opened Wire
  import opened KeyHash
  import opened Framing
  import Launcher

  type Conn = nat
  type JobId = nat

  /** An outstanding `async_read` of a client connection. */
  datatype Op = ReadHeader(c: Conn) | ReadBody(c: Conn, header: Header)

  /** An ack or a response that a worker's reader posted to the strand: the n-th packet it handled. */
  datatype Note = Note(w: nat, n: nat)

  /** On whose account a frame is written to a client: the broker's, the reader's own (an ack or err), or
      as the reply of the job that was looked up for a response. */
  datatype Why = ByBroker | ByReader | ForJob(job: JobId, note: Note)

  datatype Out = Out(packet: Packet, why: Why)

  datatype Link = Link(
    received: seq<byte>,   // all bytes that arrived
    taken: nat,            // how many of them completed reads have consumed
    handled: seq<Packet>,
    ended: bool,           // closed, stopped on an unknown type, or handed over to the launcher
    moved: bool,           // handed over: the socket now belongs to a worker
    written: seq<Out>)

  /** What a worker serialized, and what it meant by it. */
  datatype Say = Answered(packet: Packet, push: nat) | Acked(packet: Packet, push: nat) | Noise(packet: Packet)

  /** A worker: the bytes that arrived on its socket since it registered, and its reader. */
  datatype WorkerLink = WorkerLink(
    c: Conn,
    received: seq<byte>,
    taken: nat,
    reader: Reader,
    said: seq<Say>,
    broken: bool)          // a read of a header failed

  /** A job: the connection its callback writes to, and the packet pushed to a worker. */
  datatype Job = Job(origin: Conn, pack: Packet)

  /** The frame of a job appended to the socket of a worker. */
  datatype Push = Push(w: nat, job: JobId)

  /** A worker's response to the push of that number. */
  datatype Answer = Answer(push: nat, packet: Packet)

  datatype State = State(
    ops: seq<Op>,
    clients: map<Conn, Link>,
    workers: seq<WorkerLink>,
    jobs: seq<Job>,
    queue: seq<JobId>,
    mapped: map<TopicKey, JobId>,
    pushes: seq<Push>,
    wakeups: nat,
    // How many there had been when a job was last pushed onto an empty queue.
    emptied: nat,
    // Notes whose strand handler has not run, and all responses ever serialized by workers.
    inFlight: seq<Note>,
    given: seq<Answer>,
    crashed: bool)

  datatype Step =
    | Accept(c: Conn)
    | Arrive(c: Conn, bytes: seq<byte>)
    | HeaderDone(i: nat, choice: nat, noise: seq<Packet>)
    | BodyDone(i: nat, choice: nat, sequence: Quad, salt: Quad)
    | ReadFails(i: nat)
    | BrokerWrites(c: Conn, packet: Packet)
    // Workers, and the bytes that reach the server from them.
    | Answers(push: nat, data: seq<byte>)
    | Acks(push: nat)
    | Says(w: nat, packet: Packet)
    | Reaches(w: nat, bytes: seq<byte>)
    // Completions of a worker's reads, and the strand.
    | Hears(w: nat)
    | HearFails(w: nat)
    | NoteHandled(i: nat)

  const INIT := State([], map[], [], [], [], map[], [], 0, 0, [], [], false)

  function Drop<T>(s: seq<T>, i: nat): (r: seq<T>)
    requires i < |s|
    ensures |r| == |s| - 1
  {
    s[..i] + s[i + 1..]
  }

  predicate IsValid(s: State, w: nat) {
    w < |s.workers| && s.workers[w].reader.valid
  }

  ghost predicate AnyValid(workers: seq<WorkerLink>) {
    exists w :: 0 <= w < |workers| && workers[w].reader.valid
  }

  ghost predicate SomeValid(s: State) {
    AnyValid(s.workers)
  }

  // Reads ------------------------------------------------------------------------------------------------

  function Need(op: Op): nat {
    match op
    case ReadHeader(_) => HEADER_SIZE
    case ReadBody(_, h) => h.datasize
  }

  /** The bytes that the outstanding read will deliver have arrived. */
  predicate CanComplete(s: State, i: nat) {
    i < |s.ops| && s.ops[i].c in s.clients &&
    s.clients[s.ops[i].c].taken + Need(s.ops[i]) <= |s.clients[s.ops[i].c].received|
  }

  function Delivered(s: State, i: nat): (b: seq<byte>)
    requires CanComplete(s, i)
    ensures |b| == Need(s.ops[i])
  {
    var k := s.clients[s.ops[i].c];
    k.received[k.taken..k.taken + Need(s.ops[i])]
  }

  predicate RegistersWorker(s: State, i: nat) {
    CanComplete(s, i) && s.ops[i].ReadHeader? && ParseHeader(Delivered(s, i)).typ == WORKER_REG
  }

  predicate Reading(r: Reader) {
    r.want.WantHeader? || r.want.WantBody?
  }

  predicate CanHear(k: WorkerLink) {
    Reading(k.reader) && k.taken + k.reader.Need() <= |k.received|
  }

  function Heard(k: WorkerLink): (b: seq<byte>)
    requires CanHear(k)
    ensures |b| == k.reader.Need()
  {
    k.received[k.taken..k.taken + k.reader.Need()]
  }

  // What workers say -------------------------------------------------------------------------------------

  /** A packet that is neither an ack nor a response, and carries no body. */
  predicate IsNoise(p: Packet) {
    KnownType(p.header.typ) && p.header.typ != ACK && p.header.typ != WORKER_RESPONSE && p.data == []
  }

  /** What a worker answers to a push: the header it received, as a response. */
  function Response(h: Header, data: seq<byte>): Packet
    requires |data| < U32
  {
    Packet(h.(typ := WORKER_RESPONSE, datasize := |data|), data)
  }

  function AckOf(h: Header): Packet {
    Packet(h.(typ := ACK, datasize := 0), [])
  }

  function Packs(said: seq<Say>): (ps: seq<Packet>)
    ensures |ps| == |said| && forall i :: 0 <= i < |said| ==> ps[i] == said[i].packet
  {
    seq(|said|, i requires 0 <= i < |said| => said[i].packet)
  }

  function Noises(ps: seq<Packet>): (said: seq<Say>)
    ensures |said| == |ps| && forall i :: 0 <= i < |ps| ==> said[i] == Noise(Stamped(ps[i]))
  {
    seq(|ps|, i requires 0 <= i < |ps| => Noise(Stamped(ps[i])))
  }

  /** What reached the server from a worker is the front of what the worker serialized. */
  predicate Honest(k: WorkerLink) {
    k.received <= Flat(Packs(k.said))
  }

  // Steps ------------------------------------------------------------------------------------------------

  /** The worker made of a connection: it takes over the socket, with the bytes behind the registration. */
  function NewWorker(s: State, i: nat, noise: seq<Packet>): (k: WorkerLink)
    requires CanComplete(s, i)
    ensures k.c == s.ops[i].c
  {
    var k := s.clients[s.ops[i].c];
    WorkerLink(s.ops[i].c, k.received[k.taken + Need(s.ops[i])..], 0, Start(Worker), Noises(noise), false)
  }

  /** `choice` is what get_available_worker returns: some valid worker, if there is one. */
  ghost predicate ChoiceAmong(workers: seq<WorkerLink>, choice: nat) {
    AnyValid(workers) ==> choice < |workers| && workers[choice].reader.valid
  }

  ghost predicate GoodChoice(s: State, choice: nat) {
    ChoiceAmong(s.workers, choice)
  }

  predicate PushKnown(s: State, push: nat) {
    push < |s.pushes| && s.pushes[push].job < |s.jobs| && s.pushes[push].w < |s.workers|
  }

  predicate NoteKnown(s: State, note: Note) {
    note.w < |s.workers| && note.n < |s.workers[note.w].reader.handled|
  }

  ghost predicate Enabled(s: State, a: Step) {
    !s.crashed &&
    match a
    case Accept(c) => c !in s.clients
    case Arrive(c, _) => c in s.clients
    case HeaderDone(i, choice, noise) =>
      CanComplete(s, i) && s.ops[i].ReadHeader? && (forall k :: 0 <= k < |noise| ==> IsNoise(noise[k])) &&
      (RegistersWorker(s, i) ==> ChoiceAmong(s.workers + [NewWorker(s, i, noise)], choice))
    case BodyDone(i, choice, _, _) => CanComplete(s, i) && s.ops[i].ReadBody? && GoodChoice(s, choice)
    case ReadFails(i) => i < |s.ops| && s.ops[i].c in s.clients
    // An acknowledgement of a store, or a message sent to a listener: both are of type ack.
    case BrokerWrites(c, p) => c in s.clients && !s.clients[c].moved && p.header.typ == ACK
    case Answers(n, data) => PushKnown(s, n) && |data| < U32
    case Acks(n) => PushKnown(s, n)
    case Says(w, p) => w < |s.workers| && IsNoise(p)
    case Reaches(w, _) => w < |s.workers|
    case Hears(w) => w < |s.workers| && CanHear(s.workers[w])
    case HearFails(w) => w < |s.workers| && Reading(s.workers[w].reader)
    case NoteHandled(i) => i < |s.inFlight| && NoteKnown(s, s.inFlight[i])
  }

  function PushAll(w: nat, js: seq<JobId>): (ps: seq<Push>)
    ensures |ps| == |js| && forall i :: 0 <= i < |js| ==> ps[i] == Push(w, js[i])
  {
    seq(|js|, i requires 0 <= i < |js| => Push(w, js[i]))
  }

  function StartJobs(s: State, choice: nat): State {
    var d := Launcher.Drain(s.queue, IsValid(s, choice));
    s.(queue := d.queue, wakeups := s.wakeups + d.wakeups, pushes := s.pushes + PushAll(choice, d.batch))
  }

  /** `start_trigger_post`. The key of the new header is zero; the salt and the sequence are drawn. */
  function NewJob(c: Conn, body: seq<byte>, sequence: Quad, salt: Quad): Job {
    Job(c, Packet(Header(WORKER_PUSH_REQUEST, Launcher.ZERO_KEY, sequence, salt, 0), body))
  }

  /** The job is pushed, then mapped; a key that is there already keeps its job. */
  function Enqueue(s: State, job: Job): State {
    var j := |s.jobs|;
    var key := KeyOf(job.pack.header);
    s.(jobs := s.jobs + [job], queue := s.queue + [j], emptied := if s.queue == [] then s.wakeups else s.emptied,
       mapped := if key in s.mapped then s.mapped else s.mapped[key := j])
  }

  function Submit(s: State, job: Job, choice: nat): State {
    StartJobs(Enqueue(s, job), choice)
  }

  function SetClient(s: State, c: Conn, k: Link, ops: seq<Op>): State {
    s.(clients := s.clients[c := k], ops := ops)
  }

  function SetWorker(s: State, w: nat, k: WorkerLink): State
    requires w < |s.workers|
  {
    s.(workers := s.workers[w := k])
  }

  function ByReaders(ps: seq<Packet>): (ws: seq<Out>)
    ensures |ws| == |ps| && forall i :: 0 <= i < |ps| ==> ws[i] == Out(ps[i], ByReader)
  {
    seq(|ps|, i requires 0 <= i < |ps| => Out(ps[i], ByReader))
  }

  /** The switch in `tcp_connection::start_read_header`. */
  function OnHeader(s: State, i: nat, choice: nat, noise: seq<Packet>): State
    requires CanComplete(s, i) && s.ops[i].ReadHeader?
  {
    var c := s.ops[i].c;
    var h := ParseHeader(Delivered(s, i));
    var k := s.clients[c].(taken := s.clients[c].taken + HEADER_SIZE);
    var ops := Drop(s.ops, i);
    var seen := k.(handled := k.handled + [Packet(h, [])]);
    if !KnownType(h.typ) then SetClient(s, c, k.(ended := true), ops)
    else if h.typ == PUT || h.typ == TRIGGER then SetClient(s, c, k, ops + [ReadBody(c, h)])
    else if h.typ == WORKER_REG then
      StartJobs(SetClient(s, c, seen.(ended := true, moved := true), ops)
                .(workers := s.workers + [NewWorker(s, i, noise)]), choice)
    else
      SetClient(s, c, seen.(written := seen.written + ByReaders(ReaderReply(Client, h))), ops + [ReadHeader(c)])
  }

  /** The completions of `start_read_body` and of the body read in `start_trigger`. */
  function OnBody(s: State, i: nat, choice: nat, sequence: Quad, salt: Quad): State
    requires CanComplete(s, i) && s.ops[i].ReadBody?
  {
    var ReadBody(c, h) := s.ops[i];
    var body := Delivered(s, i);
    var k := s.clients[c];
    var seen := k.(taken := k.taken + h.datasize, handled := k.handled + [Packet(h, body)]);
    if h.typ == TRIGGER then
      Submit(SetClient(s, c, seen, Drop(s.ops, i)), NewJob(c, body, sequence, salt), choice)
    else SetClient(s, c, seen, Drop(s.ops, i) + [ReadHeader(c)])
  }

  function HearingLink(k: WorkerLink): WorkerLink
    requires CanHear(k)
  {
    k.(taken := k.taken + k.reader.Need(), reader := k.reader.Complete(Heard(k)))
  }

  /** The notes that a completed read posts: one for an ack or a whole response, none otherwise. */
  function Posted(w: nat, before: Reader, after: Reader): (ns: seq<Note>)
    ensures |ns| <= 1 && (ns != [] ==> ns[0] == Note(w, |before.handled|))
  {
    if |after.handled| > |before.handled| &&
       after.handled[|before.handled|].header.typ in {ACK, WORKER_RESPONSE}
    then [Note(w, |before.handled|)] else []
  }

  /** The completions of `worker::start_read_header` and `worker::start_read_body`. */
  function OnHear(s: State, w: nat): State
    requires w < |s.workers| && CanHear(s.workers[w])
  {
    var k := s.workers[w];
    var q := HearingLink(k);
    SetWorker(s, w, q).(inFlight := s.inFlight + Posted(w, k.reader, q.reader))
  }

  function PacketOf(s: State, note: Note): Packet
    requires NoteKnown(s, note)
  {
    s.workers[note.w].reader.handled[note.n]
  }

  /** The strand handlers. That of an ack looks the job up and changes its state and its timer only. That of
      a response fires the callback of the job it finds, which writes the packet to the job's connection
      and starts the next header read there; on a socket that was handed over, both fail. */
  function OnNote(s: State, i: nat): State
    requires i < |s.inFlight| && NoteKnown(s, s.inFlight[i])
  {
    var note := s.inFlight[i];
    var p := PacketOf(s, note);
    var key := KeyOf(p.header);
    var u := s.(inFlight := Drop(s.inFlight, i));
    // A lookup that finds nothing inserts a null pointer, and the handler dereferences it.
    if key !in s.mapped || s.mapped[key] >= |s.jobs| then u.(crashed := true)
    else if p.header.typ != WORKER_RESPONSE then u
    else
      var j := s.mapped[key];
      var c := s.jobs[j].origin;
      if c !in s.clients || s.clients[c].moved then u
      else
        var k := s.clients[c];
        SetClient(u, c, k.(written := k.written + [Out(p, ForJob(j, note))]), s.ops + [ReadHeader(c)])
  }

  function SaysMore(s: State, w: nat, say: Say): State
    requires w < |s.workers|
  {
    SetWorker(s, w, s.workers[w].(said := s.workers[w].said + [say]))
  }

  ghost function Apply(s: State, a: Step): State
    requires Enabled(s, a)
  {
    match a
    case Accept(c) => SetClient(s, c, Link([], 0, [], false, false, []), s.ops + [ReadHeader(c)])
    case Arrive(c, bytes) =>
      SetClient(s, c, s.clients[c].(received := s.clients[c].received + bytes), s.ops)
    case HeaderDone(i, choice, noise) => OnHeader(s, i, choice, noise)
    case BodyDone(i, choice, sequence, salt) => OnBody(s, i, choice, sequence, salt)
    case ReadFails(i) =>
      var c := s.ops[i].c;
      SetClient(s, c, s.clients[c].(ended := true), Drop(s.ops, i))
    case BrokerWrites(c, p) =>
      SetClient(s, c, s.clients[c].(written := s.clients[c].written + [Out(p, ByBroker)]), s.ops)
    case Answers(n, data) =>
      var p := Response(s.jobs[s.pushes[n].job].pack.header, data);
      SaysMore(s, s.pushes[n].w, Answered(p, n)).(given := s.given + [Answer(n, p)])
    case Acks(n) => SaysMore(s, s.pushes[n].w, Acked(AckOf(s.jobs[s.pushes[n].job].pack.header), n))
    case Says(w, p) => SaysMore(s, w, Noise(Stamped(p)))
    case Reaches(w, bytes) =>
      SetWorker(s, w, s.workers[w].(received := s.workers[w].received + bytes))
    case Hears(w) => OnHear(s, w)
    case HearFails(w) =>
      var k := s.workers[w];
      SetWorker(s, w, k.(reader := k.reader.Failed(), broken := k.broken || k.reader.want.WantHeader?))
    case NoteHandled(i) => OnNote(s, i)
  }

  // Runs -------------------------------------------------------------------------------------------------

  /** What a theorem assumes: gen never draws the salt of an earlier job; a worker answers each push at
      most once; and the bytes that arrive behind a registration are the front of what the worker made of its
      answers and acks, which echo the headers pushed to it, and of other packets without body. */
  datatype Assumptions = Assumptions(freshSalts: bool, answersOnce: bool, honestWorkers: bool)

  function KeyOfJob(s: State, j: JobId): TopicKey
    requires j < |s.jobs|
  {
    KeyOf(s.jobs[j].pack.header)
  }

  ghost predicate FreshSalt(s: State, salt: Quad) {
    forall j :: 0 <= j < |s.jobs| ==> s.jobs[j].pack.header.salt != salt
  }

  ghost predicate Unanswered(s: State, push: nat) {
    forall g :: 0 <= g < |s.given| ==> s.given[g].push != push
  }

  ghost predicate KeepsHonest(s: State, a: Step)
    requires Enabled(s, a)
  {
    && (a.HeaderDone? && RegistersWorker(s, a.i) ==> Honest(NewWorker(s, a.i, a.noise)))
    && (a.Reaches? ==> Honest(s.workers[a.w].(received := s.workers[a.w].received + a.bytes)))
  }

  ghost predicate Allowed(asm: Assumptions, s: State, a: Step) {
    && Enabled(s, a)
    && (asm.freshSalts && a.BodyDone? ==> FreshSalt(s, a.salt))
    && (asm.answersOnce && a.Answers? ==> Unanswered(s, a.push))
    && (asm.honestWorkers ==> KeepsHonest(s, a))
  }

  ghost predicate IsRun(asm: Assumptions, s: State, steps: seq<Step>)
    decreases |steps|
  {
    steps == [] || (Allowed(asm, s, steps[0]) && IsRun(asm, Apply(s, steps[0]), steps[1..]))
  }

  ghost function After(asm: Assumptions, s: State, steps: seq<Step>): State
    requires IsRun(asm, s, steps)
    decreases |steps|
  {
    if steps == [] then s else After(asm, Apply(s, steps[0]), steps[1..])
  }

  ghost predicate Reachable(asm: Assumptions, s: State) {
    exists steps :: IsRun(asm, INIT, steps) && s == After(asm, INIT, steps)
  }
}
