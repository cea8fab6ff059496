/** All layers at once: what the session writes is the command for the lock, and what the lock sends is heard. */
module EndToEndTheorems {
  import opened Wrappers
  import opened Bytes
  import opened Crypto
  import opened Messages
  import opened Packet
  import opened FramingTheorems
  import F = FramingTheorems
  import SessionObject

  /** The command's bytes. */
  function OnTheWire(command: CommandPayload, ref: int): bytes
    requires 1 <= ref <= 254 && |command.data| <= 255
  {
    [command.id as byte, |command.data|, ref, 0] + command.data
  }

  /**
    Every command that fits a payload can be written under any MTU the stream takes, in the clear or under the link
    cipher; a stream at the other end, with no blob in progress, makes nothing of its writes before the last, and of the
    last the command with its id, ref and data.
   */
  lemma CommandReachesTheLock(
    cipher: Option<PayloadCipher>, mtu: int, command: CommandPayload, ref: nat, r: Receiver)
    requires cipher.Some? ==> cipher.value.Lawful()
    requires mtu >= 12 && 1 <= ref <= 254 && |command.data| <= 255 && r.blob.None?
    ensures SessionObject.WritesFor(cipher, mtu, command, ref).Ok?
    ensures var ds := SessionObject.WritesFor(cipher, mtu, command, ref).value;
            && ds != [] && (forall i | 0 <= i < |ds| - 1 :: F.Outcome(cipher, r, ds, i) == Unfinished)
            && var got := F.Outcome(cipher, r, ds, |ds| - 1);
               got.Payload? && got.encrypted == cipher.Some?
               && Command.Decode(got.data) == Ok(Command(command.id, ref, command.data, 0))
  {
    var c := Command(command.id, ref, command.data, 0);
    var data := OnTheWire(command, ref);
    assert c.Encode() == Ok(data);
    OnLinkFits(cipher, data);
    FrameSucceedsIff(cipher, mtu, data);
    FrameRoundTrip(cipher, mtu, data, r);
    CommandRoundTrip(c, Seen(cipher, data));
    hide FrameOf, F.Outcome, Command.Decode;
  }

  lemma OnLinkFits(cipher: Option<PayloadCipher>, data: bytes)
    requires cipher.Some? ==> cipher.value.Lawful()
    requires 4 <= |data| <= 259
    ensures 0 < |OnLink(cipher, data)| <= 0xFFFF
  {
  }

  /** What the lock frames for its answer is heard with the last notification, and nothing before it. */
  lemma AnswerIsHeard(cipher: Option<PayloadCipher>, mtu: int, x: Response, r: Receiver)
    requires cipher.Some? ==> cipher.value.Lawful()
    requires mtu >= 12 && x.Encode().Ok? && r.blob.None?
    ensures FrameOf(cipher, mtu, x.Encode().value).Ok?
    ensures var ds := FrameOf(cipher, mtu, x.Encode().value).value;
            && ds != []
            && (forall i | 0 <= i < |ds| - 1 :: SessionObject.Listen(F.Outcome(cipher, r, ds, i)).Nothing?)
            && SessionObject.Listen(F.Outcome(cipher, r, ds, |ds| - 1)) == SessionObject.Said(x)
  {
    var data := x.Encode().value;
    OnLinkFits(cipher, data);
    FrameSucceedsIff(cipher, mtu, data);
    FrameRoundTrip(cipher, mtu, data, r);
    ResponseRoundTrip(x, Seen(cipher, data));
    hide FrameOf, F.Outcome, Response.Decode;
  }
}
