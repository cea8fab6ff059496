/** What stands on the wire, byte by byte: the codes, lengths and positions both ends must agree on. */
module WireTheorems {
  import opened Wrappers
  import opened Bytes
  import opened Crypto
  import opened Messages
  import opened Blob
  import opened Packet
  import opened FramingTheorems

  // ----- One packet, one header, one message -----

  /** A packet is its code, the length of its payload, rfu, its sequence number and the payload. */
  lemma PacketOnTheWire(p: Packet)
    ensures p.Encode().Ok? <==> |p.payload| <= 255 && 0 <= p.sequence <= 255 && 0 <= p.rfu <= 255
    ensures p.Encode().Ok? ==>
              var b := p.Encode().value;
              && |b| == 4 + |p.payload|
              && b[0] == (match p.kind
                          case Single => 0x01
                          case SingleEncrypted => 0x02
                          case BlobStart => 0x03
                          case BlobStream => 0x04
                          case BlobComplete => 0x05
                          case Ack => 0x06
                          case Nac => 0x07
                          case ErrorType => 0xF0)
              && b[1] == |p.payload| && b[2] == p.rfu && b[3] == p.sequence && b[4..] == p.payload
  {
  }

  /** A blob header is its flags, its length with the low byte first, and rfu; bit 0 of the flags says encrypted. */
  lemma BlobHeaderOnTheWire(length: nat, encrypted: bool)
    requires length <= 0xFFFF
    ensures BlobHeader.ForPayload(length, encrypted).Encode()
            == Ok([if encrypted then 1 else 0, length % 256, length / 256, 0])
    ensures BlobHeader.ForPayload(length, encrypted).Encrypted() == encrypted
  {
    LittleEndianDigits(length, 2, 0);
    LittleEndianDigits(length, 2, 1);
    var field := ToLittleEndian(length, 2);
    assert field[0] == length % 256 && field[1] == length / 256;
    var flag: byte := if encrypted then 1 else 0;
    assert [flag] + field + [0] == [flag, length % 256, length / 256, 0];
  }

  /** A command is its id, the length of its payload, its ref, rfu and the payload. */
  lemma CommandOnTheWire(c: Command)
    ensures c.Encode().Ok? <==> 1 <= c.ref <= 254 && |c.payload| <= 255 && 0 <= c.rfu <= 255
    ensures c.Encode().Ok? ==>
              var b := c.Encode().value;
              && |b| == 4 + |c.payload|
              && b[0] == c.id && b[1] == |c.payload| && b[2] == c.ref && b[3] == c.rfu && b[4..] == c.payload
  {
  }

  /** What is heard has the id first, then the length, the ref, 0x80 for an event, and the status; less is refused. */
  lemma ResponseOffTheWire(data: bytes)
    ensures Response.Decode(data).Ok? <==> |data| >= 4 && |data| - 4 >= data[1]
    ensures Response.Decode(data).Ok? ==>
              var x := Response.Decode(data).value;
              x == Response(data[0], data[2], data[3], data[4..4 + data[1]]) && (x.IsEvent() <==> data[2] == 0x80)
  {
  }

  // ----- A whole frame -----

  /** k times room, by counting. */
  function Times(k: nat, room: nat): nat {
    if k == 0 then 0 else Times(k - 1, room) + room
  }

  lemma {:induction false} TimesIs(k: nat, room: nat)
    ensures Times(k, room) == k * room
  {
    if k > 0 {
      TimesIs(k - 1, room);
    }
  }

  /** The chunk at position k of those after the first. */
  predicate ChunkIs(ps: seq<Packet>, rest: bytes, room: nat, previous: byte, k: nat)
    requires k < |ps|
  {
    && Times(k, room) < |rest|
    && ps[k] == Packet(if k == |ps| - 1 then BlobComplete else BlobStream, (previous + 1 + k) % 256,
                       rest[Times(k, room)..Min(Times(k, room) + room, |rest|)], 0)
  }

  /** The chunks after the first: how many there are, and which bytes and number each has. */
  lemma {:induction false} ContinuationAt(rest: bytes, room: nat, previous: byte)
    requires 0 < room && rest != []
    ensures var ps := Continuation(rest, room, previous);
            && ps != [] && Times(|ps| - 1, room) < |rest| <= Times(|ps|, room)
            && (forall k | 0 <= k < |ps| :: ChunkIs(ps, rest, room, previous, k))
    decreases |rest|
  {
    var n := Min(room, |rest|);
    var sequence := (previous + 1) % 256;
    var tail := Continuation(rest[n..], room, sequence);
    var ps := Continuation(rest, room, previous);
    var p := Packet(if n == |rest| then BlobComplete else BlobStream, sequence, rest[..n], 0);
    assert ps == [p] + tail;
    if n == |rest| {
      assert tail == [] && Times(1, room) == room;
      assert ChunkIs(ps, rest, room, previous, 0);
    } else {
      ContinuationAt(rest[n..], room, sequence);
      assert ChunkIs(ps, rest, room, previous, 0);
      hide Continuation, ChunkIs;
      forall k | 0 <= k < |ps|
        ensures ChunkIs(ps, rest, room, previous, k)
      {
        if k > 0 {
          ChunkMoves(p, tail, rest, room, previous, k - 1);
        }
      }
    }
  }

  /** A chunk stands one further behind one more packet. */
  lemma ChunkMoves(p: Packet, tail: seq<Packet>, rest: bytes, room: nat, previous: byte, k: nat)
    requires k < |tail| && room <= |rest| && ChunkIs(tail, rest[room..], room, (previous + 1) % 256, k)
    ensures ChunkIs([p] + tail, rest, room, previous, k + 1)
  {
    var from := Times(k, room);
    NextNumber(previous, k);
    Slice(rest, room, from, Min(from + room, |rest| - room));
  }

  lemma NextNumber(previous: byte, k: nat)
    ensures ((previous + 1) % 256 + 1 + k) % 256 == (previous + 1 + (k + 1)) % 256
  {
  }

  lemma Slice(data: bytes, n: nat, from: nat, to: nat)
    requires n <= |data| && from <= to <= |data| - n
    ensures data[n..][from..to] == data[n + from..n + to]
  {
  }

  /** The length of a full write: what the MTU leaves, or what the length field can say. */
  function Full(mtu: int): int {
    Min(mtu - 3, 259)
  }

  /** What one write of a frame holds behind its four bytes: the blob header once, and the payload in order. */
  predicate Carries(held: bytes, sent: bytes, encrypted: bool, room: nat, k: nat)
    requires 4 <= room
  {
    if k == 0 then
      && room - 4 <= |sent|
      && held
         == [if encrypted then 1 else 0, |sent| % 256, |sent| / 256 % 256, 0] + sent[..room - 4]
    else
      && 0 <= Times(k, room) - 4 <= Min(Times(k + 1, room) - 4, |sent|)
      && held == sent[Times(k, room) - 4..Min(Times(k + 1, room) - 4, |sent|)]
  }

  /**
    Every byte of a frame. A payload goes out alone, under code 1 or 2, exactly when it is at least 8 bytes shorter than
    a full write; otherwise the first write has code 3, the last code 5, those between code 4, and all but the last are
    full. Lengths and sequence numbers are written out, and the payload is cut in order.
   */
  lemma FrameOnTheWire(cipher: Option<PayloadCipher>, mtu: int, payload: bytes, k: nat)
    requires FrameOf(cipher, mtu, payload).Ok? && k < |FrameOf(cipher, mtu, payload).value|
    ensures var ds := FrameOf(cipher, mtu, payload).value;
            var sent := OnLink(cipher, payload);
            var room := Full(mtu) - 4;
            && 4 < |ds[k]| <= Full(mtu) && 4 < room
            && ds[k][1] == |ds[k]| - 4 && ds[k][2] == 0 && ds[k][3] == (1 + k) % 256
            && (|ds| == 1 <==> |sent| + 8 <= Full(mtu))
            && (|ds| == 1 ==> ds[k][0] == (if cipher.Some? then 0x02 else 0x01) && ds[k][4..] == sent)
            && (|ds| > 1 ==>
                  && (|ds| - 1) * room - 4 < |sent| <= |ds| * room - 4
                  && ds[k][0] == (if k == 0 then 0x03 else if k == |ds| - 1 then 0x05 else 0x04)
                  && (k < |ds| - 1 ==> |ds[k]| == Full(mtu))
                  && Carries(ds[k][4..], sent, cipher.Some?, room, k))
  {
    var sent := OnLink(cipher, payload);
    var ds := FrameOf(cipher, mtu, payload).value;
    var packets := FramePackets(cipher, mtu, payload);
    var room := PacketsCases(sent, cipher.Some?, mtu);
    FrameIsEncoded(cipher, mtu, payload, k);
    PacketOnTheWire(packets[k]);
    assert room == Full(mtu) - 4;
    hide FrameOf, PacketsOf, Continuation, Packet.Encode, Packet.Decode, BlobHeader.Encode, PacketRoom, Full, OnLink,
      Carries, Times, StartPacket;
    if |sent| + 4 > room {
      BlobOnTheWire(sent, cipher.Some?, room, packets, k);
      TimesIs(|packets| - 1, room);
      TimesIs(|packets|, room);
    }
  }

  /** The packet at position k of a blob of n packets. */
  predicate BlobPacketIs(p: Packet, sent: bytes, encrypted: bool, room: nat, n: nat, k: nat)
    requires 4 <= room
  {
    && p.kind == (if k == 0 then BlobStart else if k == n - 1 then BlobComplete else BlobStream)
    && p.sequence == (1 + k) % 256 && p.rfu == 0
    && 0 < |p.payload| <= room && (k < n - 1 ==> |p.payload| == room)
    && Carries(p.payload, sent, encrypted, room, k)
  }

  lemma LaterChunk(sent: bytes, encrypted: bool, room: nat, tail: seq<Packet>, k: nat)
    requires 4 < room < |sent| + 4 && k < |tail| && ChunkIs(tail, sent[room - 4..], room, 1, k)
    requires k < |tail| - 1 ==> ChunkIs(tail, sent[room - 4..], room, 1, k + 1)
    ensures BlobPacketIs(tail[k], sent, encrypted, room, |tail| + 1, k + 1)
  {
    var from := Times(k, room);
    assert Times(k + 1, room) == from + room && Times(k + 2, room) == from + room + room;
    Slice(sent, room - 4, from, Min(from + room, |sent| - (room - 4)));
  }

  lemma StartChunk(sent: bytes, encrypted: bool, room: nat, n: nat)
    requires 4 < room < |sent| + 4 && |sent| <= 0xFFFF && n > 1
    ensures BlobPacketIs(StartPacket(sent, encrypted, room), sent, encrypted, room, n, 0)
  {
    BlobHeaderOnTheWire(|sent|, encrypted);
    hide BlobHeader.Encode;
  }

  /** The packets of a blob, and how many they are. */
  lemma BlobOnTheWire(sent: bytes, encrypted: bool, room: nat, packets: seq<Packet>, k: nat)
    requires 4 < room < |sent| + 4 && |sent| <= 0xFFFF && k < |packets|
    requires packets == [StartPacket(sent, encrypted, room)] + Continuation(sent[room - 4..], room, 1)
    ensures |packets| > 1 && Times(|packets| - 1, room) - 4 < |sent| <= Times(|packets|, room) - 4
    ensures BlobPacketIs(packets[k], sent, encrypted, room, |packets|, k)
  {
    var tail := Continuation(sent[room - 4..], room, 1);
    ContinuationAt(sent[room - 4..], room, 1);
    assert Times(|tail| + 1, room) == Times(|tail|, room) + room
        && Times(|tail|, room) == Times(|tail| - 1, room) + room;
    hide Continuation, StartPacket, BlobPacketIs, ChunkIs, Times;
    if k > 0 {
      LaterChunk(sent, encrypted, room, tail, k - 1);
    } else {
      StartChunk(sent, encrypted, room, |packets|);
    }
  }

  lemma {:induction false} EncodedAt(packets: seq<Packet>, k: nat)
    requires k < |packets| && EncodeAll(packets).Ok?
    ensures |EncodeAll(packets).value| == |packets| && packets[k].Encode() == Ok(EncodeAll(packets).value[k])
    decreases |packets|
  {
    var n := |packets| - 1;
    if k < n {
      EncodedAt(packets[..n], k);
    } else if n > 0 {
      EncodedAt(packets[..n], 0);
    }
  }

  lemma FrameIsEncoded(cipher: Option<PayloadCipher>, mtu: int, payload: bytes, k: nat)
    requires FrameOf(cipher, mtu, payload).Ok? && k < |FrameOf(cipher, mtu, payload).value|
    ensures PacketsOf(OnLink(cipher, payload), cipher.Some?, mtu).Ok?
    ensures var packets := PacketsOf(OnLink(cipher, payload), cipher.Some?, mtu).value;
            && |FrameOf(cipher, mtu, payload).value| == |packets|
            && packets[k].Encode() == Ok(FrameOf(cipher, mtu, payload).value[k])
  {
    var packets := PacketsOf(OnLink(cipher, payload), cipher.Some?, mtu).value;
    hide PacketsOf;
    if packets != [] {
      EncodedAt(packets, if k < |packets| then k else 0);
    }
  }
}
