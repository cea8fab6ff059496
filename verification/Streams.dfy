/** The byte reader and writer every frame of the protocol goes through. */
module Streams {
  import opened Wrappers
  import opened Bytes

  /** Reads fields from the front of a byte string. */
  class ByteReader {
    const data: bytes
    var pos: nat

    constructor (data: bytes)
      ensures this.data == data && pos == 0
    {
      this.data := data;
      pos := 0;
    }

    predicate Valid()
      reads this
    {
      pos <= |data|
    }

    /** The bytes no read has consumed yet. */
    function Rest(): bytes
      requires Valid()
      reads this
    {
      data[pos..]
    }

    /** The next count bytes, or an error that consumes nothing. */
    method Take(count: int) returns (r: Result<bytes>)
      requires Valid()
      modifies this
      ensures Valid()
      ensures count < 0 ==> r == Err(ValidationError)
      ensures count > |old(Rest())| ==> r == Err(ProtocolError)
      ensures r.Err? ==> Rest() == old(Rest())
      ensures 0 <= count <= |old(Rest())| ==> r.Ok? && |r.value| == count && old(Rest()) == r.value + Rest()
    {
      if count < 0 {
        return Err(ValidationError);
      }
      if count > |data| - pos {
        return Err(ProtocolError);
      }
      var start := pos;
      pos := pos + count;
      r := Ok(data[start..pos]);
      assert data[start..] == data[start..pos] + data[pos..];
    }

    /** A little-endian unsigned field of size bytes. */
    method ReadUint(size: nat) returns (r: Result<nat>)
      requires Valid()
      modifies this
      ensures Valid()
      ensures r.Ok? <==> size <= |old(Rest())|
      ensures r.Err? ==> r.error == ProtocolError && Rest() == old(Rest())
      ensures r.Ok? ==> r.value < Radix(size) && old(Rest()) == ToLittleEndian(r.value, size) + Rest()
    {
      var field :- Take(size);
      LittleEndianCanonical(field);
      r := Ok(FromLittleEndian(field));
    }

    method ReadUint8() returns (r: Result<byte>)
      requires Valid()
      modifies this
      ensures Valid()
      ensures r.Ok? <==> old(Rest()) != []
      ensures r.Err? ==> r.error == ProtocolError && Rest() == old(Rest())
      ensures r.Ok? ==> old(Rest()) == [r.value] + Rest()
    {
      var field :- Take(1);
      r := Ok(field[0]);
    }

    method ReadRest() returns (r: bytes)
      requires Valid()
      modifies this
      ensures Valid() && Rest() == [] && r == old(Rest())
    {
      r := data[pos..];
      pos := |data|;
    }
  }

  /** Builds a frame field by field, refusing a value that does not fit its field. */
  class ByteWriter {
    var buffer: bytes

    constructor ()
      ensures buffer == []
    {
      buffer := [];
    }

    method WriteUint(value: int, size: nat) returns (r: Outcome)
      modifies this
      ensures r.Pass? <==> 0 <= value < Radix(size)
      ensures r.Pass? ==> buffer == old(buffer) + ToLittleEndian(value, size)
      ensures r.Fail? ==> r.error == ValidationError && buffer == old(buffer)
    {
      if !(0 <= value < Radix(size)) {
        return Fail(ValidationError);
      }
      buffer := buffer + ToLittleEndian(value, size);
      r := Pass;
    }

    method WriteUint8(value: int) returns (r: Outcome)
      modifies this
      ensures r.Pass? <==> 0 <= value < 256
      ensures r.Pass? ==> buffer == old(buffer) + [value]
      ensures r.Fail? ==> r.error == ValidationError && buffer == old(buffer)
    {
      assert Radix(1) == 256;
      r := WriteUint(value, 1);
      if r.Pass? {
        assert ToLittleEndian(value, 1) == [value];
      }
    }

    method WriteBytes(data: bytes)
      modifies this
      ensures buffer == old(buffer) + data
    {
      buffer := buffer + data;
    }
  }
}
