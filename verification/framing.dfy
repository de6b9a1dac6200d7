/** The two packet readers, `tcp_connection` (main.cpp) and `df::worker` (worker.hpp), over a byte stream.

    `Decode` is the reference meaning of a stream. `Reader` is the state machine the completion
    handlers step, one `async_read` at a time; `StreamReader` is that machine as an object.
 */
module Framing {
  import opened Wire

  /** Who is reading: the server on a client connection, the server on a connection handed over by
      `worker_reg`, or the other end of either (which reads a body after every header). */
  datatype Mode = Client | Worker | Peer

  predicate CarriesBody(m: Mode, t: byte) {
    match m
    case Client => t == PUT || t == TRIGGER
    case Worker => t == WORKER_RESPONSE
    case Peer => true
  }

  /** The `switch` on the type has no default: an unknown byte starts no further read. */
  predicate Accepts(m: Mode, t: byte) {
    m.Peer? || KnownType(t)
  }

  function NextMode(m: Mode, t: byte): Mode {
    if m.Client? && t == WORKER_REG then Worker else m
  }

  function BodyLength(m: Mode, h: Header): nat {
    if CarriesBody(m, h.typ) then h.datasize else 0
  }

  /** The packets a byte stream means. A trailing incomplete packet means nothing yet. */
  function Decode(m: Mode, s: seq<byte>): seq<Packet>
    decreases |s|
  {
    if |s| < HEADER_SIZE then []
    else
      var h := ParseHeader(s[..HEADER_SIZE]);
      var rest := s[HEADER_SIZE..];
      var n := BodyLength(m, h);
      if !Accepts(m, h.typ) || |rest| < n then []
      else [Packet(h, rest[..n])] + Decode(NextMode(m, h.typ), rest[n..])
  }

  /** The wire image of a packet list. */
  function Flat(ps: seq<Packet>): seq<byte> {
    if ps == [] then [] else Frame(ps[0]) + Flat(ps[1..])
  }

  /** Packets that a reader in mode `m` can tell apart: each carries the body its type calls for. */
  predicate Readable(m: Mode, ps: seq<Packet>)
    decreases |ps|
  {
    ps == [] ||
    (Accepts(m, ps[0].header.typ) && |ps[0].data| == BodyLength(m, ps[0].header) &&
     Readable(NextMode(m, ps[0].header.typ), ps[1..]))
  }

  function ModeAfter(m: Mode, ps: seq<Packet>): Mode
    decreases |ps|
  {
    if ps == [] then m else ModeAfter(NextMode(m, ps[0].header.typ), ps[1..])
  }

  lemma {:induction false} Regroup<T>(a: seq<T>, b: seq<T>, c: seq<T>)
    ensures (a + b) + c == a + (b + c)
  {
  }

  // Decoding against serialization ------------------------------------------------------------------

  lemma {:induction false} DecodeOneFrame(m: Mode, p: Packet, rest: seq<byte>)
    requires Accepts(m, p.header.typ) && |p.data| == BodyLength(m, p.header)
    ensures Decode(m, Frame(p) + rest) == [p] + Decode(NextMode(m, p.header.typ), rest)
  {
    var s := Frame(p) + rest;
    var after := p.data + rest;
    assert s[..HEADER_SIZE] == EncodeHeader(p.header) && s[HEADER_SIZE..] == after;
    ParseOfEncode(p.header);
    assert after[..|p.data|] == p.data && after[|p.data|..] == rest;
  }

  lemma {:induction false} DecodeFlat(m: Mode, ps: seq<Packet>, rest: seq<byte>)
    requires Readable(m, ps)
    ensures Decode(m, Flat(ps) + rest) == ps + Decode(ModeAfter(m, ps), rest)
    decreases |ps|
  {
    if ps == [] {
      assert Flat(ps) + rest == rest;
    } else {
      Regroup(Frame(ps[0]), Flat(ps[1..]), rest);
      DecodeOneFrame(m, ps[0], Flat(ps[1..]) + rest);
      DecodeFlat(NextMode(m, ps[0].header.typ), ps[1..], rest);
      Regroup([ps[0]], ps[1..], Decode(ModeAfter(m, ps), rest));
      assert ps == [ps[0]] + ps[1..];
    }
  }

  /** What an application may hand to `serialize`, one packet after the other: bodies only where the
      reader expects them, and within the bound of `ExactFitIff`. */
  predicate Sendable(m: Mode, ps: seq<Packet>)
    decreases |ps|
  {
    ps == [] ||
    (Accepts(m, ps[0].header.typ) && |ps[0].data| <= MAX_BODY &&
     (!CarriesBody(m, ps[0].header.typ) ==> ps[0].data == []) &&
     Sendable(NextMode(m, ps[0].header.typ), ps[1..]))
  }

  function StampedAll(ps: seq<Packet>): (r: seq<Packet>)
    ensures |r| == |ps| && forall i :: 0 <= i < |ps| ==> r[i] == Stamped(ps[i])
  {
    if ps == [] then [] else [Stamped(ps[0])] + StampedAll(ps[1..])
  }

  lemma {:induction false} SendableIsReadable(m: Mode, ps: seq<Packet>)
    requires Sendable(m, ps)
    ensures Readable(m, StampedAll(ps))
    decreases |ps|
  {
    if ps != [] {
      SendableIsReadable(NextMode(m, ps[0].header.typ), ps[1..]);
      assert StampedAll(ps)[1..] == StampedAll(ps[1..]);
    }
  }

  /** Framing round trip: reading the concatenated serializations gives back the same packets, with
      their headers carrying the true body lengths, and a cut-off stream gives a prefix of them. */
  lemma {:induction false} StreamRoundTrip(m: Mode, ps: seq<Packet>, cut: nat)
    requires Sendable(m, ps) && cut <= |Flat(StampedAll(ps))|
    ensures Decode(m, Flat(StampedAll(ps))) == StampedAll(ps)
    ensures Decode(m, Flat(StampedAll(ps))[..cut]) <= StampedAll(ps)
  {
    var sent := StampedAll(ps);
    SendableIsReadable(m, ps);
    DecodeFlat(m, sent, []);
    assert Flat(sent) + [] == Flat(sent);
    DecodePrefix(m, Flat(sent), cut);
  }

  lemma {:induction false} CutSlices(s: seq<byte>, cut: nat, n: nat)
    requires n <= cut <= |s|
    ensures s[..cut][..n] == s[..n]
    ensures s[..cut][n..] == s[n..][..cut - n]
  {
  }

  /** Any stream at all: a shorter prefix of it never decodes to something else. */
  lemma {:induction false} DecodePrefix(m: Mode, s: seq<byte>, cut: nat)
    requires cut <= |s|
    ensures Decode(m, s[..cut]) <= Decode(m, s)
    decreases |s|
  {
    if HEADER_SIZE <= cut {
      CutSlices(s, cut, HEADER_SIZE);
      var h := ParseHeader(s[..HEADER_SIZE]);
      var rest := s[HEADER_SIZE..];
      var n := BodyLength(m, h);
      var left := cut - HEADER_SIZE;
      if Accepts(m, h.typ) && n <= left {
        CutSlices(rest, left, n);
        assert s[..cut][HEADER_SIZE..] == rest[..left];
        DecodePrefix(NextMode(m, h.typ), rest[n..], left - n);
      }
    }
  }

  /** Decoding loses and invents nothing: its packets are readable, and their wire image is exactly
      the front of the stream. */
  lemma {:induction false} DecodeIsFaithful(m: Mode, s: seq<byte>)
    ensures Readable(m, Decode(m, s))
    ensures Flat(Decode(m, s)) <= s
    decreases |s|
  {
    if HEADER_SIZE <= |s| {
      var h := ParseHeader(s[..HEADER_SIZE]);
      var rest := s[HEADER_SIZE..];
      var n := BodyLength(m, h);
      if Accepts(m, h.typ) && n <= |rest| {
        var p := Packet(h, rest[..n]);
        var ps := Decode(NextMode(m, h.typ), rest[n..]);
        EncodeOfParse(s[..HEADER_SIZE]);
        DecodeIsFaithful(NextMode(m, h.typ), rest[n..]);
        assert Decode(m, s)[0] == p && Decode(m, s)[1..] == ps;
        PrefixOfTwo(s, HEADER_SIZE, n, Flat(ps));
      }
    }
  }

  lemma {:induction false} PrefixOfTwo(s: seq<byte>, a: nat, n: nat, tail: seq<byte>)
    requires a + n <= |s| && tail <= s[a..][n..]
    ensures (s[..a] + s[a..][..n]) + tail <= s
  {
    assert s[..a] + s[a..][..n] == s[..a + n];
    assert s[a..][n..] == s[a + n..];
  }

  /** The round trip holds for exactly the readable lists: a body after a type that carries none, a
      body of another length than announced, or an unknown type breaks it. */
  lemma {:induction false} RoundTripIff(m: Mode, ps: seq<Packet>)
    ensures Decode(m, Flat(ps)) == ps <==> Readable(m, ps)
  {
    DecodeIsFaithful(m, Flat(ps));
    if Readable(m, ps) {
      DecodeFlat(m, ps, []);
      assert Flat(ps) + [] == Flat(ps);
    }
  }

  lemma {:induction false} FlatAppend(a: seq<Packet>, b: seq<Packet>)
    ensures Flat(a + b) == Flat(a) + Flat(b)
  {
    if a == [] {
      assert a + b == b;
    } else {
      FlatAppend(a[1..], b);
      assert (a + b)[1..] == a[1..] + b;
      Regroup(Frame(a[0]), Flat(a[1..]), Flat(b));
    }
  }

  lemma {:induction false} FlatSnoc(ps: seq<Packet>, p: Packet)
    ensures Flat(ps + [p]) == Flat(ps) + Frame(p)
  {
    FlatAppend(ps, [p]);
    assert [p][1..] == [];
    assert Flat([p]) == Frame(p) + [] == Frame(p);
  }

  lemma {:induction false} ReadableAppend(m: Mode, a: seq<Packet>, p: Packet)
    ensures Readable(m, a + [p]) <==>
            Readable(m, a) && Accepts(ModeAfter(m, a), p.header.typ) &&
            |p.data| == BodyLength(ModeAfter(m, a), p.header)
    ensures ModeAfter(m, a + [p]) == NextMode(ModeAfter(m, a), p.header.typ)
    decreases |a|
  {
    if a == [] {
      assert a + [p] == [p];
      assert [p][1..] == [];
    } else {
      ReadableAppend(NextMode(m, a[0].header.typ), a[1..], p);
      assert (a + [p])[1..] == a[1..] + [p];
    }
  }

  // The reading state machine ----------------------------------------------------------------------

  /** The read the connection has outstanding. After the body of a `trigger` there is none until the
      job is answered. */
  datatype Want = WantHeader | WantBody(header: Header) | Gated | Stopped

  datatype Reader = Reader(mode: Mode, want: Want, valid: bool, handled: seq<Packet>) {
    /** How many bytes the outstanding `async_read` asks for. */
    function Need(): nat {
      match want
      case WantHeader => HEADER_SIZE
      case WantBody(h) => h.datasize
      case Gated => 0
      case Stopped => 0
    }

    /** The reader after its outstanding read has delivered `bytes`. */
    function Complete(bytes: seq<byte>): Reader
      requires (want.WantHeader? || want.WantBody?) && |bytes| == Need()
    {
      match want
      case WantHeader =>
        var h := ParseHeader(bytes);
        if !Accepts(mode, h.typ) then this.(want := Stopped)
        else if CarriesBody(mode, h.typ) then this.(want := WantBody(h))
        else Reader(NextMode(mode, h.typ), WantHeader, valid && !(mode.Worker? && h.typ == WORKER_DEREG),
                    handled + [Packet(h, [])])
      case WantBody(h) =>
        this.(want := if mode.Client? && h.typ == TRIGGER then Gated else WantHeader,
              handled := handled + [Packet(h, bytes)])
    }

    /** The reader after its outstanding read has failed. Only a failed header read on a worker connection
        clears `valid_`; a failed body read leaves a worker that nobody reads from but that counts as valid. */
    function Failed(): Reader {
      this.(want := Stopped, valid := valid && !(mode.Worker? && want.WantHeader?))
    }
  }

  /** What the reader itself writes back after a header: an ack for an ack, an err for a type that a client
      must not send. */
  function ReaderReply(m: Mode, h: Header): seq<Packet> {
    if !m.Client? then []
    else if h.typ == ACK then [Packet(h, [])]
    else if h.typ in {ERR, WORKER_DEREG, WORKER_PUSH_REQUEST, WORKER_RESPONSE} then [Packet(h.(typ := ERR), [])]
    else []
  }

  function Start(m: Mode): Reader {
    Reader(m, WantHeader, true, [])
  }

  // The switches, by raw header byte -----------------------------------------------------------------

  /** A server reading a client: 1 and 16 make it read a body, 8 hands the connection over, 0, 2, 4, 9, 10 and 11
      make it read the next header, and every other byte ends the reading. */
  lemma {:induction false} ClientSwitch(r: Reader, bytes: seq<byte>)
    requires r.mode.Client? && r.want.WantHeader? && |bytes| == 45
    ensures var t := bytes[0]; var q := r.Complete(bytes); var p := Packet(ParseHeader(bytes), []);
      && q.valid == r.valid && p.header.typ == t
      && (t == 1 || t == 16 ==> q == r.(want := WantBody(p.header)))
      && (t == 8 ==> q == r.(mode := Worker, handled := r.handled + [p]))
      && (t == 0 || t == 2 || t == 4 || 9 <= t <= 11 ==> q == r.(handled := r.handled + [p]))
      && (t !in {0, 1, 2, 4, 8, 9, 10, 11, 16} ==> q == r.(want := Stopped))
  {
  }

  /** A server reading a worker: 11 makes it read a body, 9 clears the worker's validity, and after 9 as after 0, 1,
      2, 4, 8, 10 and 16 it reads the next header; every other byte ends the reading. */
  lemma {:induction false} WorkerSwitch(r: Reader, bytes: seq<byte>)
    requires r.mode.Worker? && r.want.WantHeader? && |bytes| == 45
    ensures var t := bytes[0]; var q := r.Complete(bytes); var p := Packet(ParseHeader(bytes), []);
      && q.mode == Worker && p.header.typ == t
      && (t == 11 ==> q == r.(want := WantBody(p.header)))
      && (t == 9 ==> q == r.(valid := false, handled := r.handled + [p]))
      && (t == 0 || t == 1 || t == 2 || t == 4 || t == 8 || t == 10 || t == 16 ==> q == r.(handled := r.handled + [p]))
      && (t !in {0, 1, 2, 4, 8, 9, 10, 11, 16} ==> q == r.(want := Stopped))
  {
  }

  /** After a body the next header is read at once, except behind a trigger (16) of a client, whose job must be
      answered first. The other end of a connection reads a body behind every header. */
  lemma {:induction false} BodySwitch(r: Reader, bytes: seq<byte>)
    requires r.want.WantBody? && |bytes| == r.want.header.datasize
    ensures var q := r.Complete(bytes);
      && q.mode == r.mode && q.valid == r.valid && q.handled == r.handled + [Packet(r.want.header, bytes)]
      && (q.want == Gated <==> r.mode.Client? && r.want.header.typ == 16)
      && (q.want == WantHeader <==> !(r.mode.Client? && r.want.header.typ == 16))
  {
  }

  lemma {:induction false} PeerReadsBody(r: Reader, bytes: seq<byte>)
    requires r.mode.Peer? && r.want.WantHeader? && |bytes| == 45
    ensures r.Complete(bytes) == r.(want := WantBody(ParseHeader(bytes)))
  {
  }

  /** The server writes back an ack (4) for an ack, an err (0) for 0, 9, 10 and 11, the header otherwise unchanged
      and without body, and nothing for any other byte, nor ever to a worker. */
  lemma {:induction false} ReaderReplyTable(m: Mode, h: Header)
    ensures m.Client? && h.typ == 4 ==> ReaderReply(m, h) == [Packet(h.(typ := 4), [])]
    ensures m.Client? && h.typ in {0, 9, 10, 11} ==> ReaderReply(m, h) == [Packet(h.(typ := 0), [])]
    ensures !m.Client? || h.typ !in {0, 4, 9, 10, 11} ==> ReaderReply(m, h) == []
  {
  }

  /** Runs the reader on buffered bytes until a read cannot complete, taking every trigger as answered.
      Returns the reader and the bytes left over. */
  function Pump(r: Reader, buf: seq<byte>): (Reader, seq<byte>)
    decreases |buf|, if r.want.WantBody? then 2 else if r.want.Gated? then 1 else 0
  {
    if r.want.Stopped? then (r, buf)
    else if r.want.Gated? then Pump(r.(want := WantHeader), buf)
    else if |buf| < r.Need() then (r, buf)
    else Pump(r.Complete(buf[..r.Need()]), buf[r.Need()..])
  }

  /** What the unread bytes still mean to a reader in the middle of its work. */
  function Pending(r: Reader, buf: seq<byte>): seq<Packet> {
    match r.want
    case Stopped => []
    case WantBody(h) =>
      if |buf| < h.datasize then []
      else [Packet(h, buf[..h.datasize])] + Decode(r.mode, buf[h.datasize..])
    case _ => Decode(r.mode, buf)
  }

  /** A `WantBody` header is one whose type carries a body and changes no mode. */
  predicate Sound(r: Reader) {
    r.want.WantBody? ==> CarriesBody(r.mode, r.want.header.typ) && Accepts(r.mode, r.want.header.typ)
  }

  lemma {:induction false} HeaderKeepsMeaning(r: Reader, buf: seq<byte>)
    requires r.want.WantHeader? && HEADER_SIZE <= |buf|
    ensures var q := r.Complete(buf[..HEADER_SIZE]);
            Sound(q) && q.handled + Pending(q, buf[HEADER_SIZE..]) == r.handled + Decode(r.mode, buf)
  {
    var q := r.Complete(buf[..HEADER_SIZE]);
    var rest := buf[HEADER_SIZE..];
    var h := ParseHeader(buf[..HEADER_SIZE]);
    if Accepts(r.mode, h.typ) && !CarriesBody(r.mode, h.typ) {
      assert rest[..0] == [] && rest[0..] == rest;
      Regroup(r.handled, [Packet(h, [])], Decode(q.mode, rest));
    } else {
      assert Pending(q, rest) == Decode(r.mode, buf);
    }
  }

  /** Completing one read moves meaning from the unread bytes to the handled packets, and changes
      nothing in their sum. */
  lemma {:induction false} CompleteKeepsMeaning(r: Reader, buf: seq<byte>)
    requires Sound(r) && (r.want.WantHeader? || r.want.WantBody?) && r.Need() <= |buf|
    ensures var q := r.Complete(buf[..r.Need()]);
            Sound(q) && q.handled + Pending(q, buf[r.Need()..]) == r.handled + Pending(r, buf)
  {
    if r.want.WantHeader? {
      HeaderKeepsMeaning(r, buf);
    } else {
      var n := r.want.header.datasize;
      Regroup(r.handled, [Packet(r.want.header, buf[..n])], Decode(r.mode, buf[n..]));
    }
  }

  lemma {:induction false} PumpDecodes(r: Reader, buf: seq<byte>)
    requires Sound(r)
    ensures var (q, rest) := Pump(r, buf);
            Sound(q) && q.handled == r.handled + Pending(r, buf)
    decreases |buf|, if r.want.WantBody? then 2 else if r.want.Gated? then 1 else 0
  {
    if r.want.Stopped? {
    } else if r.want.Gated? {
      PumpDecodes(r.(want := WantHeader), buf);
    } else if r.Need() <= |buf| {
      CompleteKeepsMeaning(r, buf);
      PumpDecodes(r.Complete(buf[..r.Need()]), buf[r.Need()..]);
    }
  }

  lemma {:induction false} PumpSplit(r: Reader, a: seq<byte>, b: seq<byte>)
    ensures var (q, rest) := Pump(r, a);
            Pump(r, a + b) == Pump(q, rest + b)
    decreases |a|, if r.want.WantBody? then 2 else if r.want.Gated? then 1 else 0
  {
    if r.want.Stopped? {
    } else if r.want.Gated? {
      PumpSplit(r.(want := WantHeader), a, b);
    } else if r.Need() <= |a| {
      assert (a + b)[..r.Need()] == a[..r.Need()] && (a + b)[r.Need()..] == a[r.Need()..] + b;
      PumpSplit(r.Complete(a[..r.Need()]), a[r.Need()..], b);
    }
  }

  function Join(chunks: seq<seq<byte>>): seq<byte> {
    if chunks == [] then [] else chunks[0] + Join(chunks[1..])
  }

  /** The reader fed with chunks as the network happens to deliver them. */
  function PumpAll(r: Reader, left: seq<byte>, chunks: seq<seq<byte>>): Reader
    decreases |chunks|
  {
    if chunks == [] then r
    else
      var (q, rest) := Pump(r, left + chunks[0]);
      PumpAll(q, rest, chunks[1..])
  }

  lemma {:induction false} PumpAllIsPump(r: Reader, left: seq<byte>, chunks: seq<seq<byte>>)
    requires Pump(r, left) == (r, left)
    ensures PumpAll(r, left, chunks) == Pump(r, left + Join(chunks)).0
    decreases |chunks|
  {
    if chunks == [] {
      assert left + Join(chunks) == left;
    } else {
      var (q, rest) := Pump(r, left + chunks[0]);
      PumpSplit(r, left + chunks[0], []);
      assert left + chunks[0] + [] == left + chunks[0] && rest + [] == rest;
      PumpSplit(r, left + chunks[0], Join(chunks[1..]));
      assert left + chunks[0] + Join(chunks[1..]) == left + Join(chunks);
      PumpAllIsPump(q, rest, chunks[1..]);
    }
  }

  /** However the network cuts the stream into chunks, the reader handles exactly what it means. */
  lemma {:induction false} ReaderHandlesDecode(m: Mode, chunks: seq<seq<byte>>)
    ensures PumpAll(Start(m), [], chunks).handled == Decode(m, Join(chunks))
  {
    var r, s := Start(m), Join(chunks);
    assert Pump(r, []) == (r, []);
    PumpAllIsPump(r, [], chunks);
    assert [] + s == s;
    PumpDecodes(r, s);
    assert r.handled + Pending(r, s) == Decode(m, s);
  }

  // The reader as an object ------------------------------------------------------------------------

  /** One connection read by the server: `tcp_connection`, and after the hand-over `df::worker`. */
  class StreamReader {
    var mode: Mode
    var want: Want
    var valid: bool
    var handled: seq<Packet>
    // The frames written back, one atomic append per start_write.
    var written: seq<Packet>

    ghost function View(): Reader
      reads this
    {
      Reader(mode, want, valid, handled)
    }

    /** All the bytes taken from the socket so far, while the reader has not stopped. */
    ghost function Consumed(): seq<byte>
      reads this
    {
      Flat(handled) + if want.WantBody? then EncodeHeader(want.header) else []
    }

    constructor (m: Mode)
      ensures View() == Start(m) && written == []
    {
      mode, want, valid, handled, written := m, WantHeader, true, [], [];
    }

    /** Completion of `start_read_header`. */
    method OnHeader(bytes: seq<byte>)
      requires want.WantHeader? && |bytes| == HEADER_SIZE
      modifies this
      ensures View() == old(View()).Complete(bytes)
      ensures !want.Stopped? ==> Consumed() == old(Consumed()) + bytes
      ensures written == old(written) + StampedAll(ReaderReply(old(mode), ParseHeader(bytes)))
    {
      var h := ParseHeader(bytes);
      written := written + StampedAll(ReaderReply(mode, h));
      ghost var before := handled;
      EncodeOfParse(bytes);
      if !Accepts(mode, h.typ) {
        want := Stopped;
      } else if CarriesBody(mode, h.typ) {
        want := WantBody(h);
      } else {
        if mode.Worker? && h.typ == WORKER_DEREG {
          valid := false;
        }
        mode := NextMode(mode, h.typ);
        handled := handled + [Packet(h, [])];
        FlatSnoc(before, Packet(h, []));
        assert Frame(Packet(h, [])) == bytes;
      }
    }

    /** Completion of `start_read_body` or of the body read of `start_trigger`. */
    method OnBody(bytes: seq<byte>)
      requires want.WantBody? && |bytes| == want.header.datasize
      modifies this`handled, this`want
      ensures View() == old(View()).Complete(bytes)
      ensures Consumed() == old(Consumed()) + bytes
    {
      var p := Packet(want.header, bytes);
      FlatSnoc(handled, p);
      Regroup(Flat(handled), EncodeHeader(want.header), bytes);
      handled := handled + [p];
      want := if mode.Client? && p.header.typ == TRIGGER then Gated else WantHeader;
    }

    /** A read fails. */
    method OnError()
      requires want.WantHeader? || want.WantBody?
      modifies this`want, this`valid
      ensures View() == old(View()).Failed()
      ensures want == Stopped
      ensures valid == (old(valid) && !(mode.Worker? && old(want).WantHeader?))
    {
      if mode.Worker? && want.WantHeader? {
        valid := false;
      }
      want := Stopped;
    }

    /** The completion callback of a trigger job: writes the response, then restarts the reader. */
    method Resume(resp: Packet)
      requires want.Gated?
      modifies this`want, this`written
      ensures written == old(written) + [Stamped(resp)]
      ensures View() == old(View()).(want := WantHeader)
      ensures Consumed() == old(Consumed())
    {
      written := written + [Stamped(resp)];
      want := WantHeader;
    }
  }
}
