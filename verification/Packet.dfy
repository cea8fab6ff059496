/** Layer 1: packets on the characteristic, cutting a payload into them and putting it back together. */
module Packet {
  import opened Wrappers
  import opened Bytes
  import opened Streams
  import opened Crypto
  import opened Blob

  const ATT_OVERHEAD := 3
  const PACKET_HEADER_SIZE := 4
  const PACKET_PAYLOAD_MAX := 255
  const FIRST_SEQUENCE_NUMBER := 1
  const MTU_MIN := ATT_OVERHEAD + PACKET_HEADER_SIZE + BLOB_HEADER_SIZE + 1

  datatype PacketTypeId =
    Single | SingleEncrypted | BlobStart | BlobStream | BlobComplete | Ack | Nac | ErrorType
  {
    function Value(): byte {
      match this
      case Single => 0x01
      case SingleEncrypted => 0x02
      case BlobStart => 0x03
      case BlobStream => 0x04
      case BlobComplete => 0x05
      case Ack => 0x06
      case Nac => 0x07
      case ErrorType => 0xF0
    }

    static function FromValue(value: byte): Option<PacketTypeId> {
      if value == 0x01 then Some(Single)
      else if value == 0x02 then Some(SingleEncrypted)
      else if value == 0x03 then Some(BlobStart)
      else if value == 0x04 then Some(BlobStream)
      else if value == 0x05 then Some(BlobComplete)
      else if value == 0x06 then Some(Ack)
      else if value == 0x07 then Some(Nac)
      else if value == 0xF0 then Some(ErrorType)
      else None
    }
  }

  datatype Packet = Packet(kind: PacketTypeId, sequence: int, payload: bytes, rfu: int) {

    predicate Serializable() {
      |payload| <= PACKET_PAYLOAD_MAX && 0 <= sequence < 256 && 0 <= rfu < 256
    }

    function Encode(): Result<bytes> {
      if Serializable() then Ok([kind.Value(), |payload|, rfu, sequence] + payload) else Err(ValidationError)
    }

    method ToBytes() returns (r: Result<bytes>)
      ensures r == Encode()
    {
      if |payload| > PACKET_PAYLOAD_MAX {
        return Err(ValidationError);
      }
      var writer := new ByteWriter();
      var kindFits := writer.WriteUint8(kind.Value());
      var lengthFits := writer.WriteUint8(|payload|);
      :- writer.WriteUint8(rfu);
      :- writer.WriteUint8(sequence);
      writer.WriteBytes(payload);
      assert writer.buffer == Encode().value;
      r := Ok(writer.buffer);
    }

    static function Decode(data: bytes): Result<Packet> {
      if |data| < PACKET_HEADER_SIZE || PacketTypeId.FromValue(data[0]).None?
         || |data| - PACKET_HEADER_SIZE < data[1] then Err(ProtocolError)
      else Ok(Packet(PacketTypeId.FromValue(data[0]).value, data[3], data[4..4 + data[1]], data[2]))
    }

    static method FromBytes(data: bytes) returns (r: Result<Packet>)
      ensures r == Decode(data)
    {
      var reader := new ByteReader(data);
      assert reader.Rest() == data;
      if |data| - reader.pos < PACKET_HEADER_SIZE {
        return Err(ProtocolError);
      }
      var kind := reader.ReadUint8();
      ghost var afterKind := reader.Rest();
      var known := PacketTypeId.FromValue(kind.value);
      if known.None? {
        return Err(ProtocolError);
      }
      var length := reader.ReadUint8();
      ghost var afterLength := reader.Rest();
      var rfu := reader.ReadUint8();
      ghost var afterRfu := reader.Rest();
      var sequence := reader.ReadUint8();
      ghost var rest := reader.Rest();
      FourRead(data, [kind.value, length.value, rfu.value, sequence.value], afterKind, afterLength, afterRfu, rest,
          length.value);
      var payload :- reader.Take(length.value);
      assert payload == rest[..length.value] == data[4..4 + length.value];
      r := Ok(Packet(known.value, sequence.value, payload, rfu.value));
    }
  }

  /** A notification parses as a packet exactly when it starts with that packet's bytes. */
  lemma PacketRoundTrip(p: Packet, data: bytes)
    ensures Packet.Decode(data) == Ok(p) <==> p.Encode().Ok? && p.Encode().value <= data
  {
    if p.Encode().Ok? && p.Encode().value <= data {
      assert data[4..4 + data[1]] == p.payload;
    }
    if Packet.Decode(data) == Ok(p) {
      assert data[..4 + data[1]] == p.Encode().value;
    }
  }

  function Min(a: int, b: int): int {
    if a <= b then a else b
  }

  /** Payload bytes one packet carries at the given MTU. */
  function PacketRoom(mtu: int): Result<nat> {
    if mtu < MTU_MIN then Err(ValidationError)
    else Ok(Min(mtu - ATT_OVERHEAD - PACKET_HEADER_SIZE, PACKET_PAYLOAD_MAX))
  }

  /** The packets that carry the rest of a blob, after a packet numbered previous. */
  function Continuation(rest: bytes, room: nat, previous: byte): (r: seq<Packet>)
    requires room > 0
    decreases |rest|
  {
    if rest == [] then []
    else
      var n := Min(room, |rest|);
      var sequence := (previous + 1) % 256;
      [Packet(if n == |rest| then BlobComplete else BlobStream, sequence, rest[..n], 0)]
      + Continuation(rest[n..], room, sequence)
  }

  /** The BlobStart packet of a payload too long for one packet. */
  function StartPacket(payload: bytes, encrypted: bool, room: nat): Packet
    requires BLOB_HEADER_SIZE <= room && room - BLOB_HEADER_SIZE <= |payload| <= BLOB_LENGTH_MAX
  {
    var header := BlobHeader.ForPayload(|payload|, encrypted).Encode().value;
    Packet(BlobStart, FIRST_SEQUENCE_NUMBER, header + payload[..room - BLOB_HEADER_SIZE], 0)
  }

  /** One packet, or a BlobStart and its continuation. */
  function PacketsOf(payload: bytes, encrypted: bool, mtu: int): Result<seq<Packet>> {
    if payload == [] then Err(ValidationError)
    else
      var room :- PacketRoom(mtu);
      if |payload| + PACKET_HEADER_SIZE <= room then
        Ok([Packet(if encrypted then SingleEncrypted else Single, FIRST_SEQUENCE_NUMBER, payload, 0)])
      else if |payload| > BLOB_LENGTH_MAX then Err(ValidationError)
      else
        Ok([StartPacket(payload, encrypted, room)]
           + Continuation(payload[room - BLOB_HEADER_SIZE..], room, FIRST_SEQUENCE_NUMBER))
  }

  /** The packet at a position of the payload, and the packets after it. */
  lemma ContinuationStep(payload: bytes, position: nat, room: nat, previous: byte)
    requires room > 0 && position < |payload|
    ensures var end := Min(position + room, |payload|);
            var sequence := (previous + 1) % 256;
            Continuation(payload[position..], room, previous)
            == [Packet(if end == |payload| then BlobComplete else BlobStream, sequence, payload[position..end], 0)]
               + Continuation(payload[end..], room, sequence)
  {
    var end := Min(position + room, |payload|);
    assert payload[position..][..end - position] == payload[position..end];
    assert payload[position..][end - position..] == payload[end..];
  }

  /** The loop that cuts everything after the first chunk. */
  method CutRest(payload: bytes, first: nat, room: nat, previous: byte) returns (packets: seq<Packet>)
    requires room > 0 && first <= |payload|
    ensures packets == Continuation(payload[first..], room, previous)
  {
    packets := [];
    var sequence: byte := previous;
    var position := first;
    ghost var whole := Continuation(payload[first..], room, previous);
    while position < |payload|
      invariant first <= position <= |payload|
      invariant packets + Continuation(payload[position..], room, sequence) == whole
    {
      ContinuationStep(payload, position, room, sequence);
      sequence := (sequence + 1) % 256;
      var chunk := payload[position..Min(position + room, |payload|)];
      position := position + |chunk|;
      var kind := if position == |payload| then BlobComplete else BlobStream;
      var packet := Packet(kind, sequence, chunk, 0);
      Reassociate(packets, [packet], Continuation(payload[position..], room, sequence));
      packets := packets + [packet];
    }
    assert payload[position..] == [] && packets + [] == packets;
  }

  method Packetize(payload: bytes, encrypted: bool, mtu: int) returns (r: Result<seq<Packet>>)
    ensures r == PacketsOf(payload, encrypted, mtu)
  {
    if payload == [] {
      return Err(ValidationError);
    }
    var room :- PacketRoom(mtu);
    var sequence: byte := FIRST_SEQUENCE_NUMBER;
    if |payload| + PACKET_HEADER_SIZE <= room {
      return Ok([Packet(if encrypted then SingleEncrypted else Single, sequence, payload, 0)]);
    }
    if |payload| > BLOB_LENGTH_MAX {
      return Err(ValidationError);
    }
    var first := room - BLOB_HEADER_SIZE;
    var header := BlobHeader.ForPayload(|payload|, encrypted).ToBytes();
    var packets := [Packet(BlobStart, sequence, header.value + payload[..first], 0)];
    var rest := CutRest(payload, first, room, sequence);
    r := Ok(packets + rest);
  }

  /** What the stream needs from an encrypter. */
  datatype PayloadCipher = PayloadCipher(encrypt: bytes -> bytes, decrypt: bytes -> Result<bytes>) {
    /** Decryption gives back the plaintext zero-padded to whole blocks. */
    ghost predicate Lawful() {
      forall p: bytes :: decrypt(encrypt(p)) == Ok(ZeroPad(p)) && |encrypt(p)| == |ZeroPad(p)|
    }
  }

  function LinkCipher(aes: Aes128Cbc): PayloadCipher {
    PayloadCipher(p => aes.Encrypt(p), c => aes.Decrypt(c))
  }

  lemma LinkCipherIsLawful(aes: Aes128Cbc)
    requires aes.cipher.IsPermutation()
    ensures LinkCipher(aes).Lawful()
  {
    forall p: bytes
      ensures LinkCipher(aes).decrypt(LinkCipher(aes).encrypt(p)) == Ok(ZeroPad(p))
      ensures |LinkCipher(aes).encrypt(p)| == |ZeroPad(p)|
    {
      DecryptEncrypt(aes, p);
    }
  }

  /** What one notification amounts to. Rejected stands for a raised BleProtocolError. */
  datatype Received =
    | Payload(data: bytes, encrypted: bool)
    | Status(packet: Packet)
    | Unfinished
    | Rejected

  /** The receiving half of a stream: the blob in progress and the last sequence number seen in it. */
  datatype Receiver = Receiver(blob: Option<Assembly>, lastSequence: int)

  const AFTER_RESET := Receiver(None, 0)

  function Deliver(cipher: Option<PayloadCipher>, receiver: Receiver, data: bytes, encrypted: bool)
    : (Receiver, Received)
  {
    match cipher
    case None => (receiver, Payload(data, encrypted))
    case Some(c) =>
      match c.decrypt(data)
      case Ok(plain) => (receiver, Payload(plain, encrypted))
      case Err(_) => (AFTER_RESET, Rejected)
  }

  /** The receiver's reaction to one packet. */
  function OnPacket(cipher: Option<PayloadCipher>, receiver: Receiver, p: Packet): (Receiver, Received) {
    match p.kind
    case Single =>
      if receiver.blob.Some? then (AFTER_RESET, Rejected) else Deliver(cipher, receiver, p.payload, false)
    case SingleEncrypted =>
      if receiver.blob.Some? then (AFTER_RESET, Rejected) else Deliver(cipher, receiver, p.payload, true)
    case BlobStart =>
      if receiver.blob.Some? then (AFTER_RESET, Rejected)
      else (match Begin(p.payload)
            case Err(_) => (AFTER_RESET, Rejected)
            case Ok(a) => (Receiver(Some(a), p.sequence), Unfinished))
    case BlobStream =>
      if receiver.blob.None? || p.sequence != (receiver.lastSequence + 1) % 256 then (AFTER_RESET, Rejected)
      else (match Append(receiver.blob.value, p.payload)
            case Err(_) => (AFTER_RESET, Rejected)
            case Ok(a) => (Receiver(Some(a), p.sequence), Unfinished))
    case BlobComplete =>
      if receiver.blob.None? || p.sequence != (receiver.lastSequence + 1) % 256 then (AFTER_RESET, Rejected)
      else (match Append(receiver.blob.value, p.payload)
            case Err(_) => (AFTER_RESET, Rejected)
            case Ok(a) =>
              if |a.buffer| != a.header.length then (AFTER_RESET, Rejected)
              else Deliver(cipher, AFTER_RESET, a.buffer, a.header.Encrypted()))
    case _ => (receiver, Status(p))
  }

  /** The receiver's reaction to one notification. */
  function OnNotification(cipher: Option<PayloadCipher>, receiver: Receiver, data: bytes): (Receiver, Received) {
    match Packet.Decode(data)
    case Err(_) => (AFTER_RESET, Rejected)
    case Ok(p) => OnPacket(cipher, receiver, p)
  }

  /** The bytes of packets that all fit their fields. */
  function EncodeAll(packets: seq<Packet>): Result<seq<bytes>> {
    if packets == [] then Ok([])
    else
      var front :- EncodeAll(packets[..|packets| - 1]);
      var last :- packets[|packets| - 1].Encode();
      Ok(front + [last])
  }

  /** The writes that send a payload, encrypted first when there is a cipher. */
  function FrameOf(cipher: Option<PayloadCipher>, mtu: int, payload: bytes): Result<seq<bytes>> {
    var sent := if cipher.Some? then cipher.value.encrypt(payload) else payload;
    var packets :- PacketsOf(sent, cipher.Some?, mtu);
    EncodeAll(packets)
  }

  lemma {:induction false} EncodeAllPrefix(packets: seq<Packet>, n: nat)
    requires n < |packets|
    requires EncodeAll(packets[..n]).Err? || packets[n].Encode().Err?
    ensures EncodeAll(packets).Err?
    ensures EncodeAll(packets).error == ValidationError
    decreases |packets|
  {
    var m := |packets| - 1;
    EncodeAllError(packets);
    if n < m {
      assert packets[..m][..n] == packets[..n];
      EncodeAllPrefix(packets[..m], n);
    }
  }

  lemma {:induction false} EncodeAllError(packets: seq<Packet>)
    ensures EncodeAll(packets).Err? ==> EncodeAll(packets).error == ValidationError
  {
    if packets != [] {
      EncodeAllError(packets[..|packets| - 1]);
    }
  }

  /** Framing and reassembly for one connection. */
  class PacketStream {
    const mtu: int
    var cipher: Option<PayloadCipher>
    var blob: Option<BlobAssembler>
    var lastSequence: int

    constructor (mtu: int)
      ensures this.mtu == mtu && cipher.None? && Valid() && blob.None? && View() == AFTER_RESET
    {
      this.mtu := mtu;
      cipher := None;
      blob := None;
      lastSequence := 0;
    }

    /** Refuses an MTU too small for a blob. */
    static method Open(mtu: int) returns (r: Result<PacketStream>)
      ensures r.Ok? <==> mtu >= MTU_MIN
      ensures r.Ok? ==> fresh(r.value) && r.value.Valid() && r.value.mtu == mtu
      ensures r.Ok? ==> r.value.View() == AFTER_RESET && r.value.cipher.None? && r.value.blob.None?
    {
      var room :- PacketRoom(mtu);
      var stream := new PacketStream(mtu);
      r := Ok(stream);
    }

    function Footprint(): set<object>
      reads this
    {
      {this} + (if blob.Some? then {blob.value} else {})
    }

    /** A blob in progress has not been completed and is within its declared length. */
    predicate Valid()
      reads Footprint()
    {
      blob.Some? ==> !blob.value.completed && |blob.value.buffer| <= blob.value.header.length
    }

    function View(): Receiver
      reads Footprint()
    {
      Receiver(if blob.Some? then Some(blob.value.View()) else None, lastSequence)
    }

    method Frame(payload: bytes) returns (r: Result<seq<bytes>>)
      ensures r == FrameOf(cipher, mtu, payload)
    {
      var sent := payload;
      if cipher.Some? {
        sent := cipher.value.encrypt(payload);
      }
      var packets :- Packetize(sent, cipher.Some?, mtu);
      var writes := [];
      for i := 0 to |packets|
        invariant EncodeAll(packets[..i]) == Ok(writes)
      {
        assert packets[..i + 1][..i] == packets[..i];
        var data := packets[i].ToBytes();
        if data.Err? {
          EncodeAllPrefix(packets, i);
          return Err(data.error);
        }
        writes := writes + [data.value];
      }
      assert packets[..|packets|] == packets;
      r := Ok(writes);
    }

    /** Forget a blob in progress, as after a reconnect. */
    method Reset()
      modifies this`blob, this`lastSequence
      ensures Valid() && blob.None? && View() == AFTER_RESET
    {
      blob := None;
      lastSequence := 0;
    }

    method Receive(data: bytes) returns (r: Received)
      requires Valid()
      modifies Footprint()
      ensures Valid() && cipher == old(cipher) && fresh(Footprint() - old(Footprint()))
      ensures (View(), r) == OnNotification(cipher, old(View()), data)
    {
      var packet := Packet.FromBytes(data);
      if packet.Err? {
        Reset();
        return Rejected;
      }
      r := Dispatch(packet.value);
      if r.Rejected? {
        Reset();
      }
    }

    /** The match on the packet type. A Rejected result leaves the reset to the caller. */
    method Dispatch(p: Packet) returns (r: Received)
      requires Valid()
      modifies Footprint()
      ensures cipher == old(cipher) && fresh(Footprint() - old(Footprint()))
      ensures r == OnPacket(cipher, old(View()), p).1
      ensures !r.Rejected? ==> Valid() && View() == OnPacket(cipher, old(View()), p).0
    {
      match p.kind {
        case Single =>
          if blob.Some? {
            return Rejected;
          }
          r := Hand(p.payload, false);
        case SingleEncrypted =>
          if blob.Some? {
            return Rejected;
          }
          r := Hand(p.payload, true);
        case BlobStart =>
          if blob.Some? {
            return Rejected;
          }
          var started := BlobAssembler.FromStart(p.payload);
          if started.Err? {
            return Rejected;
          }
          blob := Some(started.value);
          lastSequence := p.sequence;
          r := Unfinished;
        case BlobStream =>
          if !NextInBlob(p) {
            return Rejected;
          }
          lastSequence := p.sequence;
          var added := blob.value.Add(p.payload);
          r := if added.Pass? then Unfinished else Rejected;
        case BlobComplete =>
          if !NextInBlob(p) {
            return Rejected;
          }
          lastSequence := p.sequence;
          var encrypted := blob.value.header.Encrypted();
          var whole := blob.value.Complete(p.payload);
          if whole.Err? {
            return Rejected;
          }
          Reset();
          r := Hand(whole.value, encrypted);
        case _ =>
          r := Status(p);
      }
    }

    /** Does this packet continue the blob in progress, in sequence modulo 256? */
    predicate NextInBlob(p: Packet)
      reads this
    {
      blob.Some? && p.sequence == (lastSequence + 1) % 256
    }

    method Hand(data: bytes, encrypted: bool) returns (r: Received)
      ensures r == Deliver(cipher, AFTER_RESET, data, encrypted).1
    {
      if cipher.None? {
        return Payload(data, encrypted);
      }
      var plain := cipher.value.decrypt(data);
      r := if plain.Ok? then Payload(plain.value, encrypted) else Rejected;
    }
  }
}
