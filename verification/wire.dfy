/** The packet codec of serializer.hpp: byte order, the 45-byte header, and the serialized packet.

    Host memory is modelled explicitly, so that the theorems say the wire format does not depend on
    the byte order of the machine that wrote it.
 */
module Wire {

  type byte = b: int | 0 <= b < 256

  const U32: nat := 0x1_0000_0000

  type uint32 = n: int | 0 <= n < 0x1_0000_0000

  // Byte order -----------------------------------------------------------------------------------

  datatype Host = LittleEndian | BigEndian

  /** The number of values of a `w`-byte unsigned integer. */
  function Values(w: nat): (n: nat)
    ensures n >= 1
  {
    if w == 0 then 1 else 256 * Values(w - 1)
  }

  /** The `w` low bytes of `x`, least significant first. */
  function LittleBytes(x: nat, w: nat): (s: seq<byte>)
    ensures |s| == w
  {
    if w == 0 then [] else [x % 256] + LittleBytes(x / 256, w - 1)
  }

  function LittleValue(s: seq<byte>): nat {
    if s == [] then 0 else s[0] + 256 * LittleValue(s[1..])
  }

  function Reverse<T>(s: seq<T>): (r: seq<T>)
    ensures |r| == |s|
    ensures forall i :: 0 <= i < |s| ==> r[i] == s[|s| - 1 - i]
  {
    if s == [] then [] else Reverse(s[1..]) + [s[0]]
  }

  /** What `memcpy` from the address of a `w`-byte integer copies. */
  function Memory(host: Host, x: nat, w: nat): (s: seq<byte>)
    ensures |s| == w
  {
    if host.LittleEndian? then LittleBytes(x, w) else Reverse(LittleBytes(x, w))
  }

  /** What `memcpy` to the address of an integer leaves in it. */
  function Load(host: Host, s: seq<byte>): nat {
    LittleValue(if host.LittleEndian? then s else Reverse(s))
  }

  /** Network byte order: most significant byte first (Appendix B of RFC 791). */
  function NetworkOrder(x: nat, w: nat): (s: seq<byte>)
    ensures |s| == w
  {
    Reverse(LittleBytes(x, w))
  }

  function NetworkValue(s: seq<byte>): nat {
    LittleValue(Reverse(s))
  }

  predicate SupportedWidth(w: nat) {
    w == 4 || w == 2 || w == 1
  }

  /** `hton` dispatches on the width; an unsupported width yields -1, that is, all bits set. */
  function Hton(host: Host, x: nat, w: nat): nat {
    if w == 4 || w == 2 then
      (if host.LittleEndian? then LittleValue(Reverse(LittleBytes(x, w))) else x)
    else if w == 1 then x
    else Values(w) - 1
  }

  /** `ntoh` is the same exchange of bytes as `hton`. */
  function Ntoh(host: Host, x: nat, w: nat): nat {
    Hton(host, x, w)
  }

  lemma {:induction false} ReverseTwice<T>(s: seq<T>)
    ensures Reverse(Reverse(s)) == s
  {
    assert forall i :: 0 <= i < |s| ==> Reverse(Reverse(s))[i] == s[i];
  }

  lemma {:induction false} LittleRoundTrip(x: nat, w: nat)
    requires x < Values(w)
    ensures LittleValue(LittleBytes(x, w)) == x
  {
    if w > 0 {
      LittleRoundTrip(x / 256, w - 1);
      assert LittleBytes(x, w)[1..] == LittleBytes(x / 256, w - 1);
    }
  }

  lemma {:induction false} LittleBytesRoundTrip(s: seq<byte>)
    ensures LittleValue(s) < Values(|s|)
    ensures LittleBytes(LittleValue(s), |s|) == s
  {
    if s != [] {
      LittleBytesRoundTrip(s[1..]);
      assert LittleValue(s) / 256 == LittleValue(s[1..]) && LittleValue(s) % 256 == s[0];
      assert s == [s[0]] + s[1..];
    }
  }

  lemma {:induction false} NetworkRoundTrip(x: nat, w: nat)
    requires x < Values(w)
    ensures NetworkValue(NetworkOrder(x, w)) == x
  {
    ReverseTwice(LittleBytes(x, w));
    LittleRoundTrip(x, w);
  }

  lemma {:induction false} NetworkBytesRoundTrip(s: seq<byte>)
    ensures NetworkValue(s) < Values(|s|)
    ensures NetworkOrder(NetworkValue(s), |s|) == s
  {
    LittleBytesRoundTrip(Reverse(s));
    ReverseTwice(s);
  }

  /** Copying `hton(x)` out of host memory gives network byte order on either kind of host. */
  lemma {:induction false} MemoryOfHton(host: Host, x: nat, w: nat)
    requires SupportedWidth(w) && x < Values(w)
    ensures Memory(host, Hton(host, x, w), w) == NetworkOrder(x, w)
  {
    if w == 1 {
      assert LittleBytes(x, 1) == [x % 256] == Reverse(LittleBytes(x, 1));
    } else if host.LittleEndian? {
      LittleBytesRoundTrip(Reverse(LittleBytes(x, w)));
    }
  }

  /** Copying network-ordered bytes into host memory and applying `ntoh` reads their value. */
  lemma {:induction false} NtohOfLoad(host: Host, s: seq<byte>)
    requires SupportedWidth(|s|)
    ensures Ntoh(host, Load(host, s), |s|) == NetworkValue(s)
  {
    if |s| == 1 {
      assert Reverse(s) == s;
    } else if host.LittleEndian? {
      LittleBytesRoundTrip(s);
    }
  }

  /** `ntoh` undoes `hton` exactly at the supported widths; at any other width everything is mapped
      to -1, so only -1 survives. */
  lemma {:induction false} HtonUndoneIff(host: Host, x: nat, w: nat)
    requires x < Values(w)
    ensures Ntoh(host, Hton(host, x, w), w) == x <==> SupportedWidth(w) || x == Values(w) - 1
  {
    if (w == 4 || w == 2) && host.LittleEndian? {
      LittleBytesRoundTrip(Reverse(LittleBytes(x, w)));
      NetworkRoundTrip(x, w);
    }
  }

  lemma {:induction false} FourByteValues()
    ensures Values(4) == U32
  {
    assert Values(2) == 65536;
  }

  // Headers --------------------------------------------------------------------------------------

  const ERR: byte := 0
  const PUT: byte := 1
  const GET: byte := 2
  const ACK: byte := 4
  const WORKER_REG: byte := 8
  const WORKER_DEREG: byte := 9
  const WORKER_PUSH_REQUEST: byte := 10
  const WORKER_RESPONSE: byte := 11
  const TRIGGER: byte := 16

  predicate KnownType(t: byte) {
    t in {ERR, PUT, GET, ACK, WORKER_REG, WORKER_DEREG, WORKER_PUSH_REQUEST, WORKER_RESPONSE, TRIGGER}
  }

  type Key = k: seq<byte> | |k| == 32 witness seq(32, _ => 0)
  type Quad = q: seq<byte> | |q| == 4 witness [0, 0, 0, 0]

  /** `type` is kept as a raw byte, because `parse` stores whatever byte arrives. */
  datatype Header = Header(typ: byte, key: Key, sequence: Quad, salt: Quad, datasize: uint32) {
    predicate IsTrigger() {
      salt[3] == 0
    }
  }

  datatype Packet = Packet(header: Header, data: seq<byte>)

  const HEADER_SIZE: nat := 45

  function EncodeHeader(h: Header): (s: seq<byte>)
    ensures |s| == HEADER_SIZE
  {
    [h.typ] + h.key + h.sequence + h.salt + NetworkOrder(h.datasize, 4)
  }

  function ParseHeader(s: seq<byte>): Header
    requires |s| == HEADER_SIZE
  {
    NetworkBytesRoundTrip(s[41..45]);
    FourByteValues();
    Header(s[0], s[1..33], s[33..37], s[37..41], NetworkValue(s[41..45]))
  }

  lemma {:induction false} ParseOfEncode(h: Header)
    ensures ParseHeader(EncodeHeader(h)) == h
  {
    var s := EncodeHeader(h);
    FourByteValues();
    NetworkRoundTrip(h.datasize, 4);
    assert s[1..33] == h.key && s[33..37] == h.sequence && s[37..41] == h.salt;
    assert s[41..45] == NetworkOrder(h.datasize, 4);
  }

  lemma {:induction false} EncodeOfParse(s: seq<byte>)
    requires |s| == HEADER_SIZE
    ensures EncodeHeader(ParseHeader(s)) == s
  {
    NetworkBytesRoundTrip(s[41..45]);
    assert s == [s[0]] + s[1..33] + s[33..37] + s[37..41] + s[41..45];
  }

  /** Every 45-byte array is the image of exactly one header, whatever its type byte. */
  lemma {:induction false} HeaderBijection(s: seq<byte>, h: Header)
    requires |s| == HEADER_SIZE
    ensures ParseHeader(s) == h <==> EncodeHeader(h) == s
  {
    ParseOfEncode(h);
    EncodeOfParse(s);
  }

  lemma {:induction false} FourBigEndian(x: nat)
    requires x < 0x1_0000_0000
    ensures NetworkOrder(x, 4) == [x / 0x100_0000, x / 0x1_0000 % 256, x / 256 % 256, x % 256]
  {
    var y, z := x / 256, x / 256 / 256;
    assert z == x / 0x1_0000 && z / 256 == x / 0x100_0000;
    assert LittleBytes(z, 2) == [z % 256, z / 256 % 256];
    assert LittleBytes(x, 4) == [x % 256, y % 256] + LittleBytes(z, 2);
  }

  /** Where each field lies in the 45 bytes. */
  lemma {:induction false} HeaderLayout(h: Header)
    ensures |EncodeHeader(h)| == 45 && EncodeHeader(h)[0] == h.typ && EncodeHeader(h)[1..33] == h.key
    ensures EncodeHeader(h)[33..37] == h.sequence && EncodeHeader(h)[37..41] == h.salt
    ensures EncodeHeader(h)[41..] ==
      [h.datasize / 0x100_0000, h.datasize / 0x1_0000 % 256, h.datasize / 256 % 256, h.datasize % 256]
  {
    FourBigEndian(h.datasize);
    hide NetworkOrder;
  }

  // Serialized packets ---------------------------------------------------------------------------

  /** The bytes of one packet: its header, then its body. */
  function Frame(p: Packet): seq<byte> {
    EncodeHeader(p.header) + p.data
  }

  /** `serialize` first stores the body length in the header, as a 32-bit number. */
  function Stamped(p: Packet): Packet {
    p.(header := p.header.(datasize := |p.data| % U32))
  }

  /** The buffer that `serialize` allocates: `bytesize + datasize` is computed in 32 bits. */
  function AllocatedSize(n: nat): nat {
    (HEADER_SIZE + n % U32) % U32
  }

  const MAX_BODY: nat := U32 - 46

  /** `serialize` fills its buffer exactly, neither short nor over, just for bodies up to 2^32 - 46. */
  lemma {:induction false} ExactFitIff(p: Packet)
    ensures |Frame(Stamped(p))| == AllocatedSize(|p.data|) <==> |p.data| <= MAX_BODY
    ensures |p.data| > MAX_BODY ==> |Frame(Stamped(p))| > AllocatedSize(|p.data|)
  {
    assert |Frame(Stamped(p))| == HEADER_SIZE + |p.data|;
    assert AllocatedSize(|p.data|) < U32;
  }

  /** `s` with the bytes from `pos` on overwritten by `src`. */
  function Splice(s: seq<byte>, pos: nat, src: seq<byte>): (r: seq<byte>)
    requires pos + |src| <= |s|
    ensures |r| == |s|
  {
    s[..pos] + src + s[pos + |src|..]
  }

  lemma {:induction false} SpliceTwice(s: seq<byte>, pos: nat, a: seq<byte>, b: seq<byte>)
    requires pos + |a| + |b| <= |s|
    ensures Splice(Splice(s, pos, a), pos + |a|, b) == Splice(s, pos, a + b)
  {
    var t := Splice(s, pos, a);
    assert t[..pos + |a|] == s[..pos] + a;
    assert t[pos + |a| + |b|..] == s[pos + |a| + |b|..];
  }

  lemma {:induction false} WholeSplice(s: seq<byte>, src: seq<byte>)
    requires |src| == |s|
    ensures Splice(s, 0, src) == src
  {
    assert s[..0] == [] && s[|src|..] == [];
  }

  lemma {:induction false} SliceOfSlice(s: seq<byte>, lo: nat, hi: nat, i: nat, j: nat)
    requires lo <= hi <= |s| && i <= j <= hi - lo
    ensures s[lo..hi][i..j] == s[lo + i..lo + j]
  {
    var part := s[lo..hi];
    assert forall k :: 0 <= k < j - i ==> part[i..j][k] == part[i + k] == s[lo + i..lo + j][k];
    assert |part[i..j]| == |s[lo + i..lo + j]|;
    assert part[i..j] == s[lo + i..lo + j];
  }

  /** `memcpy(buf + pos, src, |src|)`. */
  method MemCpy(buf: array<byte>, pos: nat, src: seq<byte>)
    requires pos + |src| <= buf.Length
    modifies buf
    ensures buf[..] == Splice(old(buf[..]), pos, src)
  {
    forall i | 0 <= i < |src| {
      buf[pos + i] := src[i];
    }
  }

  class MutablePacket {
    var header: Header
    var data: seq<byte>

    ghost function View(): Packet
      reads this
    {
      Packet(header, data)
    }

    constructor (header: Header, data: seq<byte>)
      ensures View() == Packet(header, data)
    {
      this.header := header;
      this.data := data;
    }

    /** `packet_header::dump`: five copies at advancing positions. */
    method Dump(host: Host, buf: array<byte>, pos: nat) returns (end: nat)
      requires pos + HEADER_SIZE <= buf.Length
      modifies buf
      ensures end == pos + HEADER_SIZE
      ensures buf[..] == Splice(old(buf[..]), pos, EncodeHeader(header))
    {
      ghost var was := buf[..];
      ghost var h := header;
      MemCpy(buf, pos, [header.typ]);
      SpliceTwice(was, pos, [h.typ], h.key);
      MemCpy(buf, pos + 1, header.key);
      SpliceTwice(was, pos, [h.typ] + h.key, h.sequence);
      MemCpy(buf, pos + 33, header.sequence);
      SpliceTwice(was, pos, [h.typ] + h.key + h.sequence, h.salt);
      MemCpy(buf, pos + 37, header.salt);
      var size := Hton(host, header.datasize, 4);
      FourByteValues();
      MemoryOfHton(host, header.datasize, 4);
      SpliceTwice(was, pos, [h.typ] + h.key + h.sequence + h.salt, NetworkOrder(h.datasize, 4));
      MemCpy(buf, pos + 41, Memory(host, size, 4));
      end := pos + 45;
    }

    /** `packet_header::parse`: overwrites every header field from 45 bytes. */
    method Parse(host: Host, buf: array<byte>, pos: nat)
      requires pos + HEADER_SIZE <= buf.Length
      modifies this`header
      ensures header == ParseHeader(buf[pos..pos + HEADER_SIZE])
    {
      var image := buf[pos + 41..pos + 45];
      var size := Ntoh(host, Load(host, image), 4);
      NtohOfLoad(host, image);
      NetworkBytesRoundTrip(image);
      FourByteValues();
      ghost var s := buf[..];
      SliceOfSlice(s, pos, pos + 45, 1, 33);
      SliceOfSlice(s, pos, pos + 45, 33, 37);
      SliceOfSlice(s, pos, pos + 45, 37, 41);
      SliceOfSlice(s, pos, pos + 45, 41, 45);
      header := Header(buf[pos], buf[pos + 1..pos + 33], buf[pos + 33..pos + 37], buf[pos + 37..pos + 41], size);
    }

    /** `packet::serialize`. For a body beyond the bound of `ExactFitIff` the buffer is too small: the header is
        stamped and the buffer allocated all the same, and the copy that follows leaves it. The model stops
        before that copy. */
    method Serialize(host: Host) returns (r: array<byte>, overrun: bool)
      modifies this`header
      ensures View() == Stamped(old(View()))
      ensures header == old(header).(datasize := |data| % 0x1_0000_0000) && data == old(data)
      ensures fresh(r) && r.Length == AllocatedSize(|data|)
      ensures overrun <==> |data| > MAX_BODY
      ensures overrun <==> r.Length < |Frame(View())|
      ensures !overrun ==> r[..] == Frame(View())
    {
      var n := |data|;
      header := header.(datasize := n % U32);
      r := new byte[AllocatedSize(n)];
      ExactFitIff(View());
      overrun := HEADER_SIZE + n > r.Length;
      if overrun {
        return;
      }
      ghost var blank := r[..];
      var pos := Dump(host, r, 0);
      SpliceTwice(blank, 0, EncodeHeader(header), data);
      MemCpy(r, pos, data);
      WholeSplice(blank, Frame(View()));
    }
  }
}
