/** The topic broker of main.cpp: the concurrent map of buckets behind `put` and `get`.

    Handler-atomic: each posted handler (store, load, drain) is one method call. The broker refines
    `Board`, a plain map from topic key to pending messages and waiters.
 */
module Topics {
  import opened Wire
  import opened KeyHash

  type Message = seq<byte>

  /** The connection a listener slot writes to. */
  type Conn = nat

  /** One call of `start_write`. */
  datatype Write = Write(to: Conn, packet: Packet)

  // The reference: a board of topics -----------------------------------------------------------------

  datatype Topic = Topic(pending: seq<Message>, waiters: seq<Conn>)

  type Board = map<TopicKey, Topic>

  function TopicOf(b: Board, k: TopicKey): Topic {
    if k in b then b[k] else Topic([], [])
  }

  function Put(b: Board, k: TopicKey, m: Message): Board {
    var t := TopicOf(b, k);
    b[k := t.(pending := t.pending + [m])]
  }

  function Get(b: Board, k: TopicKey, c: Conn): Board {
    var t := TopicOf(b, k);
    b[k := t.(waiters := t.waiters + [c])]
  }

  /** Making the bucket of a topic first changes neither operation. */
  lemma {:induction false} TouchedTopic(b: Board, k: TopicKey, m: Message, c: Conn)
    ensures Put(b[k := TopicOf(b, k)], k, m) == Put(b, k, m)
    ensures Get(b[k := TopicOf(b, k)], k, c) == Get(b, k, c)
  {
  }

  /** One firing of the signal: every slot writes the packet, in connection order. */
  function Signal(waiters: seq<Conn>, p: Packet): (ws: seq<Write>)
    ensures |ws| == |waiters|
    ensures forall j :: 0 <= j < |waiters| ==> ws[j] == Write(waiters[j], p)
  {
    seq(|waiters|, j requires 0 <= j < |waiters| => Write(waiters[j], p))
  }

  function Reply(event: Packet, m: Message): Packet {
    Packet(event.header.(typ := ACK), m)
  }

  function Batch(pending: seq<Message>, waiters: seq<Conn>, event: Packet): seq<Write> {
    if pending == [] then []
    else Signal(waiters, Reply(event, pending[0])) + Batch(pending[1..], waiters, event)
  }

  function Repeat(n: nat, body: Message): (r: seq<Message>)
    ensures |r| == n && forall i :: 0 <= i < n ==> r[i] == body
  {
    seq(n, _ => body)
  }

  predicate Delivers(t: Topic, event: Packet) {
    !event.header.IsTrigger() && t.waiters != [] && t.pending != []
  }

  /** The topic after the drain that `event` posted. */
  function Drained(t: Topic, event: Packet): Topic {
    if event.header.IsTrigger() then t.(pending := [])
    else if Delivers(t, event) then Topic([], [])
    else t
  }

  function DrainWrites(t: Topic, event: Packet): seq<Write> {
    if Delivers(t, event) then Batch(t.pending, t.waiters, event) else []
  }

  /** A trigger drain posts the body of the packet that ran it, once per message popped. */
  function DrainPosts(t: Topic, event: Packet): seq<Message> {
    if event.header.IsTrigger() then Repeat(|t.pending|, event.data) else []
  }

  /** One firing gives every waiter the same batch: the pending messages, all of them, in order. */
  lemma {:induction false} BatchAt(pending: seq<Message>, waiters: seq<Conn>, event: Packet, i: nat, j: nat)
    requires i < |pending| && j < |waiters|
    ensures |Batch(pending, waiters, event)| == |pending| * |waiters|
    ensures 0 <= i * |waiters| + j < |Batch(pending, waiters, event)|
    ensures Batch(pending, waiters, event)[i * |waiters| + j]
         == Write(waiters[j], Packet(event.header.(typ := 4), pending[i]))
  {
    BatchSize(pending, waiters, event);
    var n := |waiters|;
    if i > 0 {
      BatchAt(pending[1..], waiters, event, i - 1, j);
      assert i * n + j == n + ((i - 1) * n + j);
    } else {
      BatchSize(pending[1..], waiters, event);
      assert i * n + j == j;
    }
  }

  lemma {:induction false} BatchSize(pending: seq<Message>, waiters: seq<Conn>, event: Packet)
    ensures |Batch(pending, waiters, event)| == |pending| * |waiters|
  {
    if pending != [] {
      BatchSize(pending[1..], waiters, event);
      var n, k := |waiters|, |pending| - 1;
      assert (k + 1) * n == n + k * n;
    }
  }

  /** What one waiter hears of a list of writes. */
  function Heard(ws: seq<Write>, c: Conn): seq<Packet> {
    if ws == [] then [] else (if ws[0].to == c then [ws[0].packet] else []) + Heard(ws[1..], c)
  }

  function Copies(p: Packet, n: nat): (ps: seq<Packet>)
    ensures |ps| == n && forall i :: 0 <= i < n ==> ps[i] == p
  {
    seq(n, _ => p)
  }

  /** The replies to the pending messages in order, `n` copies of each. */
  function Replies(pending: seq<Message>, event: Packet, n: nat): seq<Packet> {
    if pending == [] then [] else Copies(Reply(event, pending[0]), n) + Replies(pending[1..], event, n)
  }

  lemma {:induction false} HeardAppend(a: seq<Write>, b: seq<Write>, c: Conn)
    ensures Heard(a + b, c) == Heard(a, c) + Heard(b, c)
  {
    if a == [] {
      assert a + b == b;
    } else {
      var head, rest := if a[0].to == c then [a[0].packet] else [], a[1..];
      assert (a + b)[1..] == rest + b;
      assert Heard(a + b, c) == head + Heard(rest + b, c);
      assert Heard(a, c) == head + Heard(rest, c);
      HeardAppend(rest, b, c);
    }
  }

  /** How many gets of a connection wait. */
  function Waits(waiters: seq<Conn>, c: Conn): nat {
    if waiters == [] then 0 else (if waiters[0] == c then 1 else 0) + Waits(waiters[1..], c)
  }

  lemma {:induction false} HeardSignal(waiters: seq<Conn>, p: Packet, c: Conn)
    ensures Heard(Signal(waiters, p), c) == Copies(p, Waits(waiters, c))
  {
    if waiters != [] {
      HeardSignal(waiters[1..], p, c);
      assert Signal(waiters, p)[1..] == Signal(waiters[1..], p);
    }
  }

  /** A connection hears the pending messages, all of them, in order, each one as often as it waits; so one that
      does not wait hears nothing. */
  lemma {:induction false} WaiterHearsBatch(pending: seq<Message>, waiters: seq<Conn>, event: Packet, c: Conn)
    ensures Heard(Batch(pending, waiters, event), c) == Replies(pending, event, Waits(waiters, c))
    ensures Waits(waiters, c) > 0 <==> c in waiters
  {
    WaitsIn(waiters, c);
    if pending != [] {
      var first := Signal(waiters, Reply(event, pending[0]));
      HeardAppend(first, Batch(pending[1..], waiters, event), c);
      HeardSignal(waiters, Reply(event, pending[0]), c);
      WaiterHearsBatch(pending[1..], waiters, event, c);
    }
  }

  lemma {:induction false} WaitsIn(waiters: seq<Conn>, c: Conn)
    ensures Waits(waiters, c) > 0 <==> c in waiters
  {
    if waiters != [] {
      WaitsIn(waiters[1..], c);
    }
  }

  /** Each popped message is posted as its own body if and only if the queue held nothing but copies of
      the body of the packet that ran the drain. */
  lemma {:induction false} OwnBodiesPostedIff(t: Topic, event: Packet)
    requires event.header.IsTrigger()
    ensures DrainPosts(t, event) == t.pending <==> forall i :: 0 <= i < |t.pending| ==> t.pending[i] == event.data
  {
    var posts := DrainPosts(t, event);
    if forall i :: 0 <= i < |t.pending| ==> t.pending[i] == event.data {
      assert posts == t.pending;
    }
  }

  /** Row `i`, column `j` of rows of `n`. */
  function Place(i: nat, n: nat, j: nat): nat {
    i * n + j
  }

  /** Each waiter gets each message, in order, as an ack under the drain's own header. */
  ghost predicate IsBatch(pending: seq<Message>, waiters: seq<Conn>, event: Packet, writes: seq<Write>) {
    && |writes| == Place(|pending|, |waiters|, 0)
    && forall i, j :: 0 <= i < |pending| && 0 <= j < |waiters| ==>
         Place(i, |waiters|, j) < |writes| &&
         writes[Place(i, |waiters|, j)] == Write(waiters[j], Packet(event.header.(typ := 4), pending[i]))
  }

  lemma {:induction false} BatchPlace(pending: seq<Message>, waiters: seq<Conn>, event: Packet, i: nat, j: nat)
    requires i < |pending| && j < |waiters|
    ensures Place(i, |waiters|, j) < |Batch(pending, waiters, event)|
    ensures Batch(pending, waiters, event)[Place(i, |waiters|, j)]
         == Write(waiters[j], Packet(event.header.(typ := 4), pending[i]))
  {
    BatchAt(pending, waiters, event, i, j);
  }

  lemma {:induction false} BatchIsBatch(pending: seq<Message>, waiters: seq<Conn>, event: Packet)
    ensures IsBatch(pending, waiters, event, Batch(pending, waiters, event))
  {
    BatchSize(pending, waiters, event);
    assert |Batch(pending, waiters, event)| == Place(|pending|, |waiters|, 0);
    hide Batch, Place;
    forall i, j | 0 <= i < |pending| && 0 <= j < |waiters|
      ensures Place(i, |waiters|, j) < |Batch(pending, waiters, event)|
      ensures Batch(pending, waiters, event)[Place(i, |waiters|, j)]
           == Write(waiters[j], Packet(event.header.(typ := 4), pending[i]))
    {
      BatchPlace(pending, waiters, event, i, j);
    }
  }

  /** What a drain leaves, writes and posts, in its own terms. A listener topic gives its waiters away if and only if
      it has both waiters and messages; then it gives away all of both, and otherwise it stays as it is. A trigger
      topic gives away its messages, keeps its waiters, and posts the drain's own body once a message. */
  ghost predicate IsDrain(t: Topic, event: Packet, v: Topic, writes: seq<Write>, posts: seq<Message>) {
    && (event.header.salt[3] != 0 ==>
          && posts == []
          && (t.waiters != [] && t.pending != [] ==>
                v.waiters == [] && v.pending == [] && IsBatch(t.pending, t.waiters, event, writes))
          && (t.waiters == [] || t.pending == [] ==> v == t && writes == []))
    && (event.header.salt[3] == 0 ==>
          && v.pending == [] && v.waiters == t.waiters && writes == []
          && |posts| == |t.pending| && forall i :: 0 <= i < |posts| ==> posts[i] == event.data)
  }

  lemma {:induction false} DrainedIsDrain(t: Topic, event: Packet)
    ensures IsDrain(t, event, Drained(t, event), DrainWrites(t, event), DrainPosts(t, event))
  {
    hide IsBatch, Batch;
    BatchIsBatch(t.pending, t.waiters, event);
  }

  /** A get of an empty topic waits through its own drain for the next put, whose drain gives it the message and
      nothing else, and leaves the topic empty. */
  lemma {:induction false} GetWaitsForPut(b: Board, c: Conn, get: Packet, put: Packet)
    requires get.header.salt[3] != 0 && KeyOf(get.header) == KeyOf(put.header)
    requires TopicOf(b, KeyOf(get.header)) == Topic([], [])
    ensures var k := KeyOf(get.header);
            var t := Get(b, k, c)[k];
            var waiting := Get(b, k, c)[k := Drained(t, get)];
            var u := Put(waiting, k, put.data)[k];
            && DrainWrites(t, get) == []
            && DrainWrites(u, put) == [Write(c, Packet(put.header.(typ := 4), put.data))]
            && Drained(u, put) == Topic([], [])
  {
    var k := KeyOf(get.header);
    var t, u := Topic([], [c]), Topic([put.data], [c]);
    assert put.header.salt == get.header.salt;
    DrainedIsDrain(t, get);
    DrainedIsDrain(u, put);
    hide Drained, DrainWrites, DrainPosts, IsBatch;
    assert Get(b, k, c)[k] == t && Put(Get(b, k, c)[k := t], k, put.data)[k] == u;
    OneWrite(c, put, DrainWrites(u, put));
  }

  lemma {:induction false} OneWrite(c: Conn, put: Packet, writes: seq<Write>)
    requires IsBatch([put.data], [c], put, writes)
    ensures writes == [Write(c, Packet(put.header.(typ := 4), put.data))]
  {
    hide Place;
    PlacesOfOne();
    assert |[put.data]| == 1 && |[c]| == 1;
    assert writes[Place(0, |[c]|, 0)] == Write([c][0], Packet(put.header.(typ := 4), [put.data][0]));
  }

  lemma {:induction false} PlacesOfOne()
    ensures Place(0, 1, 0) == 0 && Place(1, 1, 0) == 1
  {
  }

  // The broker ---------------------------------------------------------------------------------------

  class Bucket {
    ghost const home: TopicKey
    var messageQueue: seq<Message>
    var listeners: seq<Conn>

    ghost function View(): Topic
      reads this
    {
      Topic(messageQueue, listeners)
    }

    constructor (ghost home: TopicKey)
      ensures View() == Topic([], []) && this.home == home
    {
      this.home := home;
      messageQueue, listeners := [], [];
    }

    method PushMessage(m: Message)
      modifies this`messageQueue
      ensures messageQueue == old(messageQueue) + [m]
    {
      messageQueue := messageQueue + [m];
    }

    method GetConnect(c: Conn)
      modifies this`listeners
      ensures listeners == old(listeners) + [c]
    {
      listeners := listeners + [c];
    }

    /** The handler that `start_handle_events` posts. */
    method HandleEvents(event: Packet) returns (writes: seq<Write>, posts: seq<Message>)
      modifies this
      ensures View() == Drained(old(View()), event)
      ensures writes == DrainWrites(old(View()), event)
      ensures posts == DrainPosts(old(View()), event)
      ensures IsDrain(old(View()), event, View(), writes, posts)
    {
      hide IsDrain;
      DrainedIsDrain(View(), event);
      writes, posts := [], [];
      var resp := Reply(event, []);
      if resp.header.IsTrigger() {
        while messageQueue != []
          invariant |messageQueue| <= |old(messageQueue)| && listeners == old(listeners)
          invariant posts == Repeat(|old(messageQueue)| - |messageQueue|, event.data)
          decreases |messageQueue|
        {
          resp, messageQueue := resp.(data := messageQueue[0]), messageQueue[1..];
          posts := posts + [event.data];
        }
      } else {
        if listeners == [] || messageQueue == [] {
          return;
        }
        while messageQueue != []
          invariant listeners == old(listeners) && resp.header == event.header.(typ := ACK)
          invariant writes + Batch(messageQueue, listeners, event)
                 == Batch(old(messageQueue), old(listeners), event)
          decreases |messageQueue|
        {
          ghost var rest := Batch(messageQueue[1..], listeners, event);
          resp, messageQueue := resp.(data := messageQueue[0]), messageQueue[1..];
          ghost var before := writes;
          writes := writes + Signal(listeners, resp);
          assert writes + rest == before + (Signal(listeners, resp) + rest);
        }
        listeners := [];
      }
    }
  }

  /** The map finds an element through its hash first and compares keys second. */
  predicate Matches(a: Header, b: Header) {
    Hash(a) == Hash(b) && KeyCompare(a, b)
  }

  lemma {:induction false} MatchesIsKeyEquality(a: Header, b: Header)
    ensures Matches(a, b) <==> KeyOf(a) == KeyOf(b)
  {
    HashIsOneFold(a, b);
  }

  datatype Entry = Entry(header: Header, bucket: Bucket)

  /** One entry a topic, at its position, and one bucket an entry. */
  ghost predicate Shape(entries: seq<Entry>, board: Board, position: map<TopicKey, nat>, repr: set<Bucket>) {
    && board.Keys == position.Keys
    && (forall k :: k in position ==> position[k] < |entries| && KeyOf(entries[position[k]].header) == k)
    && (forall i :: 0 <= i < |entries| ==> KeyOf(entries[i].header) in position && position[KeyOf(entries[i].header)] == i)
    && (forall i :: 0 <= i < |entries| ==>
          entries[i].bucket in repr && entries[i].bucket.home == KeyOf(entries[i].header))
  }

  lemma {:induction false} ShapeAppend(entries: seq<Entry>, board: Board, position: map<TopicKey, nat>, repr: set<Bucket>,
                    h: Header, b: Bucket)
    requires Shape(entries, board, position, repr) && KeyOf(h) !in board && b.home == KeyOf(h)
    ensures Shape(entries + [Entry(h, b)], board[KeyOf(h) := Topic([], [])], position[KeyOf(h) := |entries|], repr + {b})
  {
    hide KeyOf;
  }

  class Broker {
    var entries: seq<Entry>
    ghost var board: Board

    ghost var repr: set<Bucket>

    // The position of each topic among the entries.
    ghost var position: map<TopicKey, nat>

    ghost predicate Shaped()
      reads this
    {
      Shape(entries, board, position, repr)
    }

    ghost predicate Valid()
      reads this, repr
    {
      && Shaped()
      && forall i :: 0 <= i < |entries| ==> entries[i].bucket.View() == board[KeyOf(entries[i].header)]
    }

    constructor ()
      ensures Valid() && board == map[] && entries == []
    {
      entries, board, repr, position := [], map[], {}, map[];
    }

    method Contains(h: Header) returns (found: bool)
      requires Valid()
      ensures found <==> KeyOf(h) in board
    {
      forall i | 0 <= i < |entries|
        ensures Matches(entries[i].header, h) <==> KeyOf(entries[i].header) == KeyOf(h)
      {
        MatchesIsKeyEquality(entries[i].header, h);
      }
      assert KeyOf(h) in board ==> Matches(entries[position[KeyOf(h)]].header, h);
      found := exists i :: 0 <= i < |entries| && Matches(entries[i].header, h);
    }

    /** `emplace` leaves an element that is already there alone. */
    method Emplace(h: Header)
      requires Valid()
      modifies this
      ensures Valid() && fresh(repr - old(repr))
      ensures old(entries) <= entries && (KeyOf(h) in old(board) ==> entries == old(entries))
      ensures board == if KeyOf(h) in old(board) then old(board) else old(board)[KeyOf(h) := Topic([], [])]
    {
      var found := Contains(h);
      if !found {
        var b := new Bucket(KeyOf(h));
        Append(h, b);
      }
    }

    method Append(h: Header, b: Bucket)
      requires Valid() && KeyOf(h) !in board && b !in repr && b.home == KeyOf(h) && b.View() == Topic([], [])
      modifies this
      ensures Valid() && repr == old(repr) + {b} && entries == old(entries) + [Entry(h, b)]
      ensures board == old(board)[KeyOf(h) := Topic([], [])]
    {
      ShapeAppend(entries, board, position, repr, h, b);
      position := position[KeyOf(h) := |entries|];
      entries := entries + [Entry(h, b)];
      repr := repr + {b};
      board := board[KeyOf(h) := Topic([], [])];
    }

    method At(h: Header) returns (i: nat)
      requires Valid() && KeyOf(h) in board
      ensures i < |entries| && KeyOf(entries[i].header) == KeyOf(h)
      ensures entries[i].bucket in repr && entries[i].bucket.View() == board[KeyOf(h)]
    {
      MatchesIsKeyEquality(entries[position[KeyOf(h)]].header, h);
      i :| 0 <= i < |entries| && Matches(entries[i].header, h);
      MatchesIsKeyEquality(entries[i].header, h);
    }

    /** `get_bucket`: only the key and salt of the header matter, an existing bucket is never replaced,
        and at most one is added. */
    method GetBucket(h: Header) returns (i: nat)
      requires Valid()
      modifies this
      ensures Valid() && i < |entries| && KeyOf(entries[i].header) == KeyOf(h)
      ensures entries[i].bucket in repr && entries[i].bucket.View() == TopicOf(old(board), KeyOf(h))
      ensures old(entries) <= entries && (KeyOf(h) in old(board) ==> entries == old(entries))
      ensures board == old(board)[KeyOf(h) := TopicOf(old(board), KeyOf(h))]
      ensures KeyOf(h) in old(board) ==> board == old(board)
      ensures fresh(repr - old(repr))
    {
      var found := Contains(h);
      if !found {
        Emplace(h);
      }
      i := At(h);
    }

    /** The ghost board follows a change of one bucket. */
    ghost method Sync(i: nat)
      requires Shaped() && i < |entries|
      requires forall j :: 0 <= j < |entries| && j != i ==>
                 entries[j].bucket.View() == board[KeyOf(entries[j].header)]
      modifies this`board
      ensures Valid() && board == old(board)[KeyOf(entries[i].header) := entries[i].bucket.View()]
    {
      board := board[KeyOf(entries[i].header) := entries[i].bucket.View()];
    }

    method PushTo(i: nat, m: Message)
      requires Valid() && i < |entries|
      modifies this`board, entries[i].bucket
      ensures Valid()
      ensures board == Put(old(board), KeyOf(entries[i].header), m)
    {
      entries[i].bucket.PushMessage(m);
      Sync(i);
    }

    method ConnectTo(i: nat, c: Conn)
      requires Valid() && i < |entries|
      modifies this`board, entries[i].bucket
      ensures Valid()
      ensures board == Get(old(board), KeyOf(entries[i].header), c)
    {
      entries[i].bucket.GetConnect(c);
      Sync(i);
    }

    /** The store handler. Its drain event and its acknowledgement are the results. */
    method Store(c: Conn, p: Packet) returns (event: Packet, ack: Write)
      requires Valid()
      modifies this, repr
      ensures Valid() && fresh(repr - old(repr))
      ensures board == Put(old(board), KeyOf(p.header), p.data)
      ensures event == p && ack == Write(c, Packet(p.header.(typ := 4), []))
    {
      var i := GetBucket(p.header);
      PushTo(i, p.data);
      TouchedTopic(old(board), KeyOf(p.header), p.data, c);
      event, ack := p, Write(c, Reply(p, []));
    }

    /** The load handler. Both calls of `get_bucket` find the same bucket. */
    method Load(c: Conn, p: Packet) returns (event: Packet)
      requires Valid()
      modifies this, repr
      ensures Valid() && fresh(repr - old(repr))
      ensures board == Get(old(board), KeyOf(p.header), c)
      ensures event == p
    {
      FindAndConnect(c, p);
      var _ := GetBucket(p.header);
      event := p;
    }

    method FindAndConnect(c: Conn, p: Packet)
      requires Valid()
      modifies this, repr
      ensures Valid() && fresh(repr - old(repr))
      ensures board == Get(old(board), KeyOf(p.header), c)
    {
      var i := GetBucket(p.header);
      ConnectTo(i, c);
      TouchedTopic(old(board), KeyOf(p.header), p.data, c);
    }

    /** The drain handler of the bucket that `event` was posted for. */
    method Drain(event: Packet) returns (writes: seq<Write>, posts: seq<Message>)
      requires Valid() && KeyOf(event.header) in board
      modifies this, repr
      ensures Valid() && entries == old(entries)
      ensures var t := old(board)[KeyOf(event.header)];
              && board == old(board)[KeyOf(event.header) := Drained(t, event)]
              && writes == DrainWrites(t, event) && posts == DrainPosts(t, event)
      ensures board.Keys == old(board).Keys
      ensures IsDrain(old(board)[KeyOf(event.header)], event, board[KeyOf(event.header)], writes, posts)
      ensures forall k :: k in board && k != KeyOf(event.header) ==> board[k] == old(board)[k]
    {
      var i := At(event.header);
      writes, posts := entries[i].bucket.HandleEvents(event);
      Sync(i);
    }
  }
}
