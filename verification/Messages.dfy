/** Layers 2 and 3: the commands the phone writes and the responses the lock sends. */
module Messages {
  import opened Wrappers
  import opened Bytes
  import opened Streams
  import opened Crypto

  const HEADER_SIZE := 4
  const PAYLOAD_MAX := 255
  const COMMAND_REF_MIN := 1
  const COMMAND_REF_MAX := 254
  const COMMAND_REF_STATIC := 16
  const COMMAND_REF_COUNTER_WRAP := 128
  const EVENT_COMMAND_REF := 0x80
  const SUCCESS := 0

  const EXCHANGE_KEY_PUB_M := 0x01
  const DEVICE_MODEL_GET := 0x62

  const COMMAND_IDS: set<int> := {
    0x01, 0x17, 0x18, 0x1B, 0x1C, 0x1D, 0x1F, 0x20, 0x22, 0x23, 0x24, 0x30, 0x31, 0x32, 0x33, 0x40, 0x41,
    0x42, 0x44, 0x52, 0x53, 0x55, 0x56, 0x57, 0x58, 0x5A, 0x5B, 0x5C, 0x5D, 0x62, 0x70
  }

  type CommandId = id: int | id in COMMAND_IDS witness 0x01

  /** The id an answer to the command carries: the key exchange answers under the same value too. */
  function ExpectedResponseId(id: CommandId): int {
    id
  }

  /** What a command says, before it is given a ref. */
  datatype CommandPayload = CommandPayload(id: CommandId, data: bytes)

  datatype Command = Command(id: CommandId, ref: int, payload: bytes, rfu: int) {

    predicate Serializable() {
      && COMMAND_REF_MIN <= ref <= COMMAND_REF_MAX
      && |payload| <= PAYLOAD_MAX
      && 0 <= rfu < 256
    }

    function Encode(): Result<bytes> {
      if Serializable() then Ok([id as byte, |payload|, ref, rfu] + payload) else Err(ValidationError)
    }

    method ToBytes() returns (r: Result<bytes>)
      ensures r == Encode()
    {
      if !(COMMAND_REF_MIN <= ref <= COMMAND_REF_MAX) {
        return Err(ValidationError);
      }
      if |payload| > PAYLOAD_MAX {
        return Err(ValidationError);
      }
      var writer := new ByteWriter();
      var idFits := writer.WriteUint8(id);
      var lengthFits := writer.WriteUint8(|payload|);
      var refFits := writer.WriteUint8(ref);
      :- writer.WriteUint8(rfu);
      writer.WriteBytes(payload);
      assert writer.buffer == Encode().value;
      r := Ok(writer.buffer);
    }

    static function Decode(data: bytes): Result<Command> {
      if |data| < HEADER_SIZE || data[0] !in COMMAND_IDS || |data| - HEADER_SIZE < data[1] then Err(ProtocolError)
      else Ok(Command(data[0], data[2], data[4..4 + data[1]], data[3]))
    }

    static method FromBytes(data: bytes) returns (r: Result<Command>)
      ensures r == Decode(data)
    {
      var reader := new ByteReader(data);
      assert reader.Rest() == data;
      if |data| - reader.pos < HEADER_SIZE {
        return Err(ProtocolError);
      }
      var id := reader.ReadUint8();
      ghost var afterId := reader.Rest();
      if id.value !in COMMAND_IDS {
        return Err(ProtocolError);
      }
      var length := reader.ReadUint8();
      ghost var afterLength := reader.Rest();
      var ref := reader.ReadUint8();
      ghost var afterRef := reader.Rest();
      var rfu := reader.ReadUint8();
      ghost var rest := reader.Rest();
      FourRead(data, [id.value, length.value, ref.value, rfu.value], afterId, afterLength, afterRef, rest,
          length.value);
      var payload :- reader.Take(length.value);
      assert payload == rest[..length.value] == data[4..4 + length.value];
      r := Ok(Command(id.value, ref.value, payload, rfu.value));
    }
  }

  /** What comes back. A failed status is any value other than SUCCESS, known or not. */
  datatype Response = Response(id: int, ref: int, status: int, payload: bytes) {

    predicate IsEvent() {
      ref == EVENT_COMMAND_REF
    }

    predicate Serializable() {
      0 <= id < 256 && |payload| <= PAYLOAD_MAX && 0 <= ref < 256 && 0 <= status < 256
    }

    function Encode(): Result<bytes> {
      if Serializable() then Ok([id as byte, |payload|, ref, status] + payload) else Err(ValidationError)
    }

    method ToBytes() returns (r: Result<bytes>)
      ensures r == Encode()
    {
      var writer := new ByteWriter();
      :- writer.WriteUint8(id);
      :- writer.WriteUint8(|payload|);
      :- writer.WriteUint8(ref);
      :- writer.WriteUint8(status);
      writer.WriteBytes(payload);
      assert writer.buffer == Encode().value;
      r := Ok(writer.buffer);
    }

    static function Decode(data: bytes): Result<Response> {
      if |data| < HEADER_SIZE || |data| - HEADER_SIZE < data[1] then Err(ProtocolError)
      else Ok(Response(data[0], data[2], data[3], data[4..4 + data[1]]))
    }

    static method FromBytes(data: bytes) returns (r: Result<Response>)
      ensures r == Decode(data)
    {
      var reader := new ByteReader(data);
      assert reader.Rest() == data;
      if |data| - reader.pos < HEADER_SIZE {
        return Err(ProtocolError);
      }
      var id := reader.ReadUint8();
      ghost var afterId := reader.Rest();
      var length := reader.ReadUint8();
      ghost var afterLength := reader.Rest();
      var ref := reader.ReadUint8();
      ghost var afterRef := reader.Rest();
      var status := reader.ReadUint8();
      ghost var rest := reader.Rest();
      FourRead(data, [id.value, length.value, ref.value, status.value], afterId, afterLength, afterRef, rest,
          length.value);
      var payload :- reader.Take(length.value);
      assert payload == rest[..length.value] == data[4..4 + length.value];
      r := Ok(Response(id.value, ref.value, status.value, payload));
    }
  }

  /** Parsing inverts serializing whatever follows the declared payload, and only then. */
  lemma ResponseRoundTrip(x: Response, data: bytes)
    ensures Response.Decode(data) == Ok(x) <==> x.Encode().Ok? && x.Encode().value <= data
  {
    if x.Encode().Ok? && x.Encode().value <= data {
      assert data[4..4 + data[1]] == x.payload;
    }
    if Response.Decode(data) == Ok(x) {
      assert data[..4 + data[1]] == x.Encode().value;
    }
  }

  /** The same for a command, whose parser takes any ref while the serializer takes 1 to 254. */
  lemma CommandRoundTrip(x: Command, data: bytes)
    ensures x.Encode().Ok? && x.Encode().value <= data
            <==> Command.Decode(data) == Ok(x) && COMMAND_REF_MIN <= x.ref <= COMMAND_REF_MAX
  {
    if x.Encode().Ok? && x.Encode().value <= data {
      assert data[4..4 + data[1]] == x.payload;
    }
    if Command.Decode(data) == Ok(x) && COMMAND_REF_MIN <= x.ref <= COMMAND_REF_MAX {
      assert data[..4 + data[1]] == x.Encode().value;
    }
  }

  /** A response survives serializing, encrypting, decrypting and parsing unchanged, in both cipher modes. */
  lemma ResponseThroughCipher(x: Response, aes: Aes128Cbc)
    requires aes.cipher.IsPermutation()
    requires x.Encode().Ok?
    ensures aes.Decrypt(aes.Encrypt(x.Encode().value)).Ok?
    ensures Response.Decode(aes.Decrypt(aes.Encrypt(x.Encode().value)).value) == Ok(x)
  {
    DecryptEncrypt(aes, x.Encode().value);
    ResponseRoundTrip(x, ZeroPad(x.Encode().value));
  }

  lemma CommandThroughCipher(x: Command, aes: Aes128Cbc)
    requires aes.cipher.IsPermutation()
    requires x.Encode().Ok?
    ensures aes.Decrypt(aes.Encrypt(x.Encode().value)).Ok?
    ensures Command.Decode(aes.Decrypt(aes.Encrypt(x.Encode().value)).value) == Ok(x)
  {
    DecryptEncrypt(aes, x.Encode().value);
    CommandRoundTrip(x, ZeroPad(x.Encode().value));
  }

  /** Hands out the CommandRef for each command: the fixed 16, or a counter running 1 to 127. */
  class CommandRefCounter {
    const isStatic: bool
    var upcoming: nat

    constructor (isStatic: bool)
      ensures this.isStatic == isStatic && upcoming == COMMAND_REF_MIN && Valid()
    {
      this.isStatic := isStatic;
      upcoming := COMMAND_REF_MIN;
    }

    predicate Valid()
      reads this
    {
      COMMAND_REF_MIN <= upcoming < COMMAND_REF_COUNTER_WRAP
    }

    method Next() returns (ref: nat)
      requires Valid()
      modifies this
      ensures Valid()
      ensures (ref, upcoming) == NextRef(isStatic, old(upcoming))
    {
      if isStatic {
        return COMMAND_REF_STATIC;
      }
      ref := upcoming;
      upcoming := if ref + 1 < COMMAND_REF_COUNTER_WRAP then ref + 1 else COMMAND_REF_MIN;
    }
  }

  /** The ref handed out when upcoming is stored, and what is stored afterwards. */
  function NextRef(isStatic: bool, upcoming: nat): (nat, nat) {
    if isStatic then (COMMAND_REF_STATIC, upcoming)
    else (upcoming, if upcoming + 1 < COMMAND_REF_COUNTER_WRAP then upcoming + 1 else COMMAND_REF_MIN)
  }

  /** What a fresh counter stores after n refs have been drawn. */
  function UpcomingAfter(isStatic: bool, n: nat): nat {
    if n == 0 then COMMAND_REF_MIN else NextRef(isStatic, UpcomingAfter(isStatic, n - 1)).1
  }

  /** The ref of the n-th command drawn from a fresh counter, counting from 0. */
  function RefOf(isStatic: bool, n: nat): nat {
    NextRef(isStatic, UpcomingAfter(isStatic, n)).0
  }

  lemma {:induction false} CounterClosedForm(n: nat)
    ensures UpcomingAfter(false, n) == n % 127 + 1
  {
    if n != 0 {
      CounterClosedForm(n - 1);
      NextRemainder(n - 1);
    }
  }

  lemma NextRemainder(n: nat)
    ensures (n + 1) % 127 == if n % 127 == 126 then 0 else n % 127 + 1
  {
  }

  /** Two commands share a counter ref exactly when they are a multiple of 127 draws apart. */
  lemma CounterRefsCollideEvery127(i: nat, j: nat)
    ensures RefOf(false, i) == RefOf(false, j) <==> (j - i) % 127 == 0
    ensures COMMAND_REF_MIN <= RefOf(false, i) <= 127 && RefOf(false, i) != EVENT_COMMAND_REF
  {
    CounterClosedForm(i);
    CounterClosedForm(j);
    SameRemainder(i, j);
  }

  lemma SameRemainder(i: nat, j: nat)
    ensures i % 127 == j % 127 <==> (j - i) % 127 == 0
  {
  }
}
