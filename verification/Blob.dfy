/** Blob framing: one payload spread over several packets. */
module Blob {
  import opened Wrappers
  import opened Bytes
  import opened Streams

  const BLOB_HEADER_SIZE := 4
  const BLOB_FLAG_ENCRYPTED := 1
  const BLOB_LENGTH_MAX := 0xFFFF

  /** The four bytes at the front of a BlobStart packet's payload. */
  datatype BlobHeader = BlobHeader(length: int, flags: int, rfu: int) {

    static function ForPayload(length: int, encrypted: bool): BlobHeader {
      BlobHeader(length, if encrypted then BLOB_FLAG_ENCRYPTED else 0, 0)
    }

    /** Bit 0 of the flags. */
    predicate Encrypted() {
      flags % 2 == 1
    }

    predicate Serializable() {
      0 <= flags < 256 && 0 <= length <= BLOB_LENGTH_MAX && 0 <= rfu < 256
    }

    function Encode(): Result<bytes> {
      if Serializable() then Ok([flags as byte] + ToLittleEndian(length, 2) + [rfu]) else Err(ValidationError)
    }

    method ToBytes() returns (r: Result<bytes>)
      ensures r == Encode()
    {
      assert Radix(2) == 65536 by { assert Radix(1) == 256; }
      var writer := new ByteWriter();
      :- writer.WriteUint8(flags);
      :- writer.WriteUint(length, 2);
      :- writer.WriteUint8(rfu);
      assert writer.buffer == Encode().value;
      r := Ok(writer.buffer);
    }

    /** The header of a BlobStart payload and the chunk behind it. */
    static function Split(start: bytes): Result<(BlobHeader, bytes)> {
      if |start| < BLOB_HEADER_SIZE then Err(ProtocolError)
      else Ok((BlobHeader(FromLittleEndian(start[1..3]), start[0], start[3]), start[4..]))
    }

    static method SplitStart(start: bytes) returns (r: Result<(BlobHeader, bytes)>)
      ensures r == Split(start)
    {
      if |start| < BLOB_HEADER_SIZE {
        return Err(ProtocolError);
      }
      var reader := new ByteReader(start);
      assert reader.Rest() == start;
      var flags := reader.ReadUint8();
      var length := reader.ReadUint(2);
      var rfu := reader.ReadUint8();
      var chunk := reader.ReadRest();
      ghost var field := ToLittleEndian(length.value, 2);
      assert start == [flags.value] + field + [rfu.value] + chunk;
      assert start[1..3] == field;
      LittleEndianRoundTrip(length.value, 2);
      r := Ok((BlobHeader(length.value, flags.value, rfu.value), chunk));
    }
  }

  /** A serialized header in front of a chunk splits into that header and that chunk, and nothing else does. */
  lemma HeaderRoundTrip(header: BlobHeader, chunk: bytes, start: bytes)
    ensures BlobHeader.Split(start) == Ok((header, chunk))
            <==> header.Encode().Ok? && start == header.Encode().value + chunk
  {
    assert Radix(2) == 65536 by { assert Radix(1) == 256; }
    if header.Encode().Ok? && start == header.Encode().value + chunk {
      LittleEndianRoundTrip(header.length, 2);
      assert start[1..3] == ToLittleEndian(header.length, 2);
    }
    if BlobHeader.Split(start) == Ok((header, chunk)) {
      LittleEndianCanonical(start[1..3]);
      assert header.Serializable();
      assert start == [start[0]] + start[1..3] + [start[3]] + start[4..];
    }
  }

  /** What an assembler holds: the declared header and the bytes collected so far. */
  datatype Assembly = Assembly(header: BlobHeader, buffer: bytes)

  /** The assembly with one more chunk, refused as soon as it grows past the declared length. */
  function Append(a: Assembly, chunk: bytes): Result<Assembly> {
    if |a.buffer| + |chunk| > a.header.length then Err(ProtocolError)
    else Ok(Assembly(a.header, a.buffer + chunk))
  }

  /** The assembly a BlobStart payload begins. */
  function Begin(start: bytes): Result<Assembly> {
    var (header, chunk) :- BlobHeader.Split(start);
    Append(Assembly(header, []), chunk)
  }

  /** Collects the chunks of one incoming blob. */
  class BlobAssembler {
    const header: BlobHeader
    var buffer: bytes
    var completed: bool

    constructor (header: BlobHeader)
      ensures this.header == header && buffer == [] && !completed
    {
      this.header := header;
      buffer := [];
      completed := false;
    }

    function View(): Assembly
      reads this
    {
      Assembly(header, buffer)
    }

    static method FromStart(start: bytes) returns (r: Result<BlobAssembler>)
      ensures r.Err? ==> Begin(start) == Err(r.error)
      ensures r.Ok? ==> fresh(r.value) && !r.value.completed && Begin(start) == Ok(r.value.View())
    {
      var parts :- BlobHeader.SplitStart(start);
      var assembler := new BlobAssembler(parts.0);
      var appended := assembler.Add(parts.1);
      if appended.Fail? {
        return Err(appended.error);
      }
      r := Ok(assembler);
    }

    method Add(chunk: bytes) returns (r: Outcome)
      modifies this`buffer
      ensures r.Pass? <==> !completed && Append(old(View()), chunk).Ok?
      ensures r.Pass? ==> View() == Append(old(View()), chunk).value
      ensures r.Fail? ==> r.error == ProtocolError && View() == old(View())
    {
      if completed || |buffer| + |chunk| > header.length {
        return Fail(ProtocolError);
      }
      buffer := buffer + chunk;
      r := Pass;
    }

    /** The whole blob, if the last chunk makes up exactly the declared length. */
    method Complete(chunk: bytes) returns (r: Result<bytes>)
      modifies this
      ensures r.Ok? <==> !old(completed) && old(|buffer|) + |chunk| == header.length
      ensures r.Ok? ==> r.value == old(buffer) + chunk == buffer && completed
      ensures r.Err? ==> r.error == ProtocolError
    {
      var appended := Add(chunk);
      if appended.Fail? {
        return Err(appended.error);
      }
      if |buffer| != header.length {
        return Err(ProtocolError);
      }
      completed := true;
      r := Ok(buffer);
    }
  }
}
