/**
  What framing and reassembly guarantee together: a framed payload comes back intact, every blob
  that is delivered came from one consecutive run, and a receiver in any state recovers.
 */
module FramingTheorems {
  import opened Wrappers
  import opened Bytes
  import opened Crypto
  import opened Blob
  import opened Packet

  // ----- Runs of the receiver -----

  function StateAfter(cipher: Option<PayloadCipher>, r: Receiver, ds: seq<bytes>): Receiver {
    if ds == [] then r
    else OnNotification(cipher, StateAfter(cipher, r, ds[..|ds| - 1]), ds[|ds| - 1]).0
  }

  /** What the receiver made of notification i. */
  function Outcome(cipher: Option<PayloadCipher>, r: Receiver, ds: seq<bytes>, i: nat): Received
    requires i < |ds|
  {
    OnNotification(cipher, StateAfter(cipher, r, ds[..i]), ds[i]).1
  }

  lemma StateAfterLast(cipher: Option<PayloadCipher>, r: Receiver, ds: seq<bytes>)
    ensures StateAfter(cipher, r, []) == r
    ensures ds != []
            ==> StateAfter(cipher, r, ds)
                == OnNotification(cipher, StateAfter(cipher, r, ds[..|ds| - 1]), ds[|ds| - 1]).0
  {
  }

  lemma {:induction false} StateAfterConcat(cipher: Option<PayloadCipher>, r: Receiver, a: seq<bytes>, b: seq<bytes>)
    ensures StateAfter(cipher, r, a + b) == StateAfter(cipher, StateAfter(cipher, r, a), b)
    decreases |b|
  {
    if b == [] {
      assert a + b == a;
    } else {
      var n := |b| - 1;
      assert (a + b)[..|a + b| - 1] == a + b[..n];
      StateAfterConcat(cipher, r, a, b[..n]);
    }
  }

  // ----- A well-formed run of notifications, said without the receiver -----

  predicate CarriesNothing(p: Packet) {
    p.kind.Ack? || p.kind.Nac? || p.kind.ErrorType?
  }

  predicate AllParse(ds: seq<bytes>) {
    forall i | 0 <= i < |ds| :: Packet.Decode(ds[i]).Ok?
  }

  /** The packets among the notifications that are not ACK, NAC or ERROR. */
  function Carriers(ds: seq<bytes>): seq<Packet>
    requires AllParse(ds)
  {
    if ds == [] then []
    else
      var p := Packet.Decode(ds[|ds| - 1]).value;
      var front := Carriers(ds[..|ds| - 1]);
      if CarriesNothing(p) then front else front + [p]
  }

  /** The payloads of packets, end to end. */
  function Joined(packets: seq<Packet>): bytes {
    if packets == [] then [] else Joined(packets[..|packets| - 1]) + packets[|packets| - 1].payload
  }

  /**
    The packets are one blob, whole or so far: a BlobStart, then BlobStreams (the last of a whole
    blob a BlobComplete) numbered consecutively modulo 256, whose payloads end to end are the
    header followed by the data, no longer than the header declares and, when whole, exactly as long.
   */
  predicate Chunks(cs: seq<Packet>, a: Assembly, whole: bool) {
    && cs != [] && cs[0].kind.BlobStart? && |cs[0].payload| >= BLOB_HEADER_SIZE
    && Numbered(cs, whole)
    && BlobHeader.Split(Joined(cs)) == Ok((a.header, a.buffer))
    && |a.buffer| <= a.header.length
    && (whole ==> |cs| > 1 && |a.buffer| == a.header.length)
  }

  /** After the first packet, consecutive BlobStreams, closed by a BlobComplete when whole. */
  predicate Numbered(cs: seq<Packet>, whole: bool) {
    forall k | 0 < k < |cs| :: Follows(cs, k, whole)
  }

  predicate Follows(cs: seq<Packet>, k: nat, whole: bool)
    requires 0 < k < |cs|
  {
    && cs[k].kind == (if whole && k == |cs| - 1 then BlobComplete else BlobStream)
    && cs[k].sequence == (cs[k - 1].sequence + 1) % 256
  }

  /** The notifications are one blob, with only packets that carry nothing in between. */
  predicate Run(ds: seq<bytes>, a: Assembly, whole: bool) {
    && ds != [] && AllParse(ds)
    && !CarriesNothing(Packet.Decode(ds[0]).value)
    && (whole ==> !CarriesNothing(Packet.Decode(ds[|ds| - 1]).value))
    && Chunks(Carriers(ds), a, whole)
  }

  /** The blob in the receiver is the run of exactly these notifications. */
  predicate Holds(r: Receiver, ds: seq<bytes>) {
    && r.blob.Some? && Run(ds, r.blob.value, false)
    && var cs := Carriers(ds); r.lastSequence == cs[|cs| - 1].sequence
  }

  // ----- One more packet -----

  lemma JoinedAppend(packets: seq<Packet>, p: Packet)
    ensures Joined(packets + [p]) == Joined(packets) + p.payload
  {
  }

  lemma {:induction false} JoinedLength(cs: seq<Packet>)
    requires cs != []
    ensures |Joined(cs)| >= |cs[0].payload|
  {
    if |cs| > 1 {
      JoinedLength(cs[..|cs| - 1]);
    }
  }

  lemma SplitAppend(start: bytes, chunk: bytes, a: Assembly)
    requires |start| >= BLOB_HEADER_SIZE
    requires BlobHeader.Split(start) == Ok((a.header, a.buffer))
    ensures BlobHeader.Split(start + chunk) == Ok((a.header, a.buffer + chunk))
  {
    assert (start + chunk)[1..3] == start[1..3];
    assert (start + chunk)[4..] == start[4..] + chunk;
  }

  /** A BlobStart alone is a run in progress exactly when the assembler takes it. */
  lemma FirstChunk(p: Packet, a: Assembly)
    requires p.kind.BlobStart?
    ensures Chunks([p], a, false) <==> Begin(p.payload) == Ok(a)
  {
    assert [p][..0] == [];
    assert Joined([p]) == [] + p.payload == p.payload;
    if |p.payload| >= BLOB_HEADER_SIZE {
      var (header, chunk) := BlobHeader.Split(p.payload).value;
      assert [] + chunk == chunk;
    }
  }

  /** The next chunk in sequence extends a run, and a BlobComplete that fills it makes it whole. */
  lemma NextChunk(cs: seq<Packet>, a: Assembly, p: Packet, whole: bool)
    requires Chunks(cs, a, false)
    requires p.kind == (if whole then BlobComplete else BlobStream)
    requires p.sequence == (cs[|cs| - 1].sequence + 1) % 256
    requires Append(a, p.payload).Ok?
    requires whole ==> |a.buffer| + |p.payload| == a.header.length
    ensures Chunks(cs + [p], Append(a, p.payload).value, whole)
  {
    var more := cs + [p];
    JoinedAppend(cs, p);
    JoinedLength(cs);
    SplitAppend(Joined(cs), p.payload, a);
    forall k | 0 < k < |more|
      ensures Follows(more, k, whole)
    {
      if k < |cs| {
        assert Follows(cs, k, false);
      }
    }
  }

  /** Taking the last chunk off a run leaves a run in progress that it continues. */
  lemma FrontChunks(cs: seq<Packet>, a: Assembly, whole: bool) returns (before: Assembly)
    requires Chunks(cs, a, whole) && |cs| > 1
    ensures Chunks(cs[..|cs| - 1], before, false)
    ensures cs[|cs| - 1].kind == (if whole then BlobComplete else BlobStream)
    ensures whole ==> |a.buffer| == a.header.length
    ensures cs[|cs| - 1].sequence == (cs[|cs| - 2].sequence + 1) % 256
    ensures Append(before, cs[|cs| - 1].payload) == Ok(a)
  {
    var front, p := cs[..|cs| - 1], cs[|cs| - 1];
    assert front + [p] == cs;
    JoinedAppend(front, p);
    JoinedLength(front);
    var (header, buffer) := BlobHeader.Split(Joined(front)).value;
    before := Assembly(header, buffer);
    SplitAppend(Joined(front), p.payload, before);
    assert Follows(cs, |cs| - 1, whole);
    forall k | 0 < k < |front|
      ensures Follows(front, k, false)
    {
      assert Follows(cs, k, whole);
    }
  }

  // ----- One more notification -----

  lemma AppendNotification(ds: seq<bytes>, d: bytes)
    requires AllParse(ds) && Packet.Decode(d).Ok?
    ensures AllParse(ds + [d])
    ensures var p := Packet.Decode(d).value;
            Carriers(ds + [d]) == if CarriesNothing(p) then Carriers(ds) else Carriers(ds) + [p]
  {
  }

  lemma CarriersOfOne(d: bytes)
    requires Packet.Decode(d).Ok? && !CarriesNothing(Packet.Decode(d).value)
    ensures AllParse([d]) && Carriers([d]) == [Packet.Decode(d).value]
  {
  }

  /** The receiver that takes a notification into its blob holds the run with it at the end. */
  lemma NotificationExtends(cipher: Option<PayloadCipher>, r: Receiver, ds: seq<bytes>, d: bytes)
    requires Holds(r, ds)
    requires Packet.Decode(d).Ok? && !OnNotification(cipher, r, d).1.Rejected?
    ensures var after := OnNotification(cipher, r, d).0;
            after.blob.Some? ==> Holds(after, ds + [d])
    ensures var p := Packet.Decode(d).value;
            p.kind.BlobComplete? ==>
              Append(r.blob.value, p.payload).Ok?
              && Run(ds + [d], Append(r.blob.value, p.payload).value, true)
  {
    var p := Packet.Decode(d).value;
    AppendNotification(ds, d);
    if !CarriesNothing(p) && !p.kind.BlobStart? && !p.kind.Single? && !p.kind.SingleEncrypted? {
      NextChunk(Carriers(ds), r.blob.value, p, p.kind.BlobComplete?);
    }
  }

  /** A receiver with no blob that opens one holds the run of that notification alone. */
  lemma NotificationOpens(cipher: Option<PayloadCipher>, r: Receiver, d: bytes)
    requires r.blob.None? && OnNotification(cipher, r, d).0.blob.Some?
    ensures Holds(OnNotification(cipher, r, d).0, [d])
  {
    CarriersOfOne(d);
    FirstChunk(Packet.Decode(d).value, OnNotification(cipher, r, d).0.blob.value);
  }

  /** Taking the last notification off a run leaves a run in progress that ends in it. */
  lemma RunFront(cipher: Option<PayloadCipher>, ds: seq<bytes>, a: Assembly, whole: bool) returns (r: Receiver)
    requires Run(ds, a, whole) && |ds| > 1
    ensures Holds(r, ds[..|ds| - 1])
    ensures var step := OnNotification(cipher, r, ds[|ds| - 1]);
            var cs := Carriers(ds);
            if whole then step == Deliver(cipher, AFTER_RESET, a.buffer, a.header.Encrypted())
            else step.0 == Receiver(Some(a), cs[|cs| - 1].sequence) && (step.1.Status? || step.1.Unfinished?)
  {
    hide Carriers, Packet.Decode, Chunks;
    var n := |ds| - 1;
    var front, d := ds[..n], ds[n];
    var p, cs := Packet.Decode(d).value, Carriers(ds);
    assert ds == front + [d];
    AppendNotification(front, d);
    SomeCarrier(front);
    if CarriesNothing(p) {
      r := Receiver(Some(a), cs[|cs| - 1].sequence);
    } else {
      var before := FrontChunks(cs, a, whole);
      assert cs[..|cs| - 1] == Carriers(front);
      r := Receiver(Some(before), cs[|cs| - 2].sequence);
    }
  }

  lemma {:induction false} SomeCarrier(ds: seq<bytes>)
    requires ds != [] && AllParse(ds) && !CarriesNothing(Packet.Decode(ds[0]).value)
    ensures Carriers(ds) != []
    decreases |ds|
  {
    if |ds| > 1 {
      SomeCarrier(ds[..|ds| - 1]);
    }
  }

  // ----- Soundness -----

  /** A blob in progress is the run of the last notifications, started from a receiver with no blob. */
  lemma {:induction false} BlobIsRun(cipher: Option<PayloadCipher>, r: Receiver, ds: seq<bytes>)
    returns (earlier: seq<bytes>, run: seq<bytes>)
    requires r.blob.None?
    ensures StateAfter(cipher, r, ds).blob.Some?
            ==> ds == earlier + run && Holds(StateAfter(cipher, r, ds), run)
                && StateAfter(cipher, r, earlier).blob.None?
    decreases |ds|
  {
    hide OnNotification, StateAfter, Run, Carriers, Packet.Decode;
    earlier, run := [], [];
    StateAfterLast(cipher, r, ds);
    if ds != [] {
      var front, d := ds[..|ds| - 1], ds[|ds| - 1];
      var before := StateAfter(cipher, r, front);
      assert ds == front + [d];
      if OnNotification(cipher, before, d).0.blob.Some? {
        BlobMeansAccepted(cipher, before, d);
        if before.blob.None? {
          earlier, run := front, [d];
          NotificationOpens(cipher, before, d);
        } else {
          earlier, run := BlobIsRun(cipher, r, front);
          NotificationExtends(cipher, before, run, d);
          run := run + [d];
        }
      }
    }
  }

  lemma BlobMeansAccepted(cipher: Option<PayloadCipher>, r: Receiver, d: bytes)
    requires OnNotification(cipher, r, d).0.blob.Some?
    ensures Packet.Decode(d).Ok? && !OnNotification(cipher, r, d).1.Rejected?
  {
  }

  /** The payload the caller sees for raw bytes off the link. */
  function Opened(cipher: Option<PayloadCipher>, raw: bytes): Result<bytes> {
    if cipher.None? then Ok(raw) else cipher.value.decrypt(raw)
  }

  /** Notification i is a single packet holding this payload. */
  predicate FromSingle(cipher: Option<PayloadCipher>, d: bytes, data: bytes, encrypted: bool) {
    && Packet.Decode(d).Ok?
    && Packet.Decode(d).value.kind == (if encrypted then SingleEncrypted else Single)
    && Opened(cipher, Packet.Decode(d).value.payload) == Ok(data)
  }

  /** The notifications from j to i are one whole blob holding this payload. */
  ghost predicate FromRun(cipher: Option<PayloadCipher>, ds: seq<bytes>, j: nat, i: nat, data: bytes, encrypted: bool)
    requires j <= i < |ds|
  {
    exists a ::
      && Run(ds[j..i + 1], a, true)
      && Opened(cipher, a.buffer) == Ok(data)
      && encrypted == a.header.Encrypted()
  }

  /**
    Whatever notifications arrive, a delivered payload is one single packet, or one whole run that
    began when no blob was in progress; nothing else is ever delivered.
   */
  lemma ReceiverSoundness(cipher: Option<PayloadCipher>, r: Receiver, ds: seq<bytes>, i: nat)
    requires r.blob.None? && i < |ds|
    requires Outcome(cipher, r, ds, i).Payload?
    ensures var got := Outcome(cipher, r, ds, i);
            || FromSingle(cipher, ds[i], got.data, got.encrypted)
            || exists j: nat | j < i ::
                 FromRun(cipher, ds, j, i, got.data, got.encrypted) && StateAfter(cipher, r, ds[..j]).blob.None?
  {
    hide OnNotification, Run, Carriers, FromSingle, StateAfter, Packet.Decode;
    var front := ds[..i];
    var before := StateAfter(cipher, r, front);
    var got := Outcome(cipher, r, ds, i);
    PayloadSource(cipher, before, ds[i]);
    if !FromSingle(cipher, ds[i], got.data, got.encrypted) {
      var earlier, run := BlobIsRun(cipher, r, front);
      var j := |earlier|;
      NotificationExtends(cipher, before, run, ds[i]);
      SliceAround(ds, i, earlier, run);
      assert FromRun(cipher, ds, j, i, got.data, got.encrypted);
    }
  }

  lemma SliceAround(ds: seq<bytes>, i: nat, a: seq<bytes>, b: seq<bytes>)
    requires i < |ds| && ds[..i] == a + b
    ensures ds[..|a|] == a && ds[|a|..i + 1] == b + [ds[i]]
  {
  }

  /** A payload is handed over for a single packet, or for the packet that completes the blob held. */
  lemma PayloadSource(cipher: Option<PayloadCipher>, r: Receiver, d: bytes)
    requires OnNotification(cipher, r, d).1.Payload?
    ensures var got := OnNotification(cipher, r, d).1;
            || FromSingle(cipher, d, got.data, got.encrypted)
            || (&& Packet.Decode(d).Ok? && Packet.Decode(d).value.kind.BlobComplete?
                && r.blob.Some? && Append(r.blob.value, Packet.Decode(d).value.payload).Ok?
                && var a := Append(r.blob.value, Packet.Decode(d).value.payload).value;
                   Opened(cipher, a.buffer) == Ok(got.data) && got.encrypted == a.header.Encrypted())
  {
  }

  /** The buffer never outgrows the declared length, and a rejected notification leaves no blob. */
  lemma BufferBounded(cipher: Option<PayloadCipher>, r: Receiver, ds: seq<bytes>)
    requires r.blob.None?
    ensures var after := StateAfter(cipher, r, ds);
            after.blob.Some? ==> |after.blob.value.buffer| <= after.blob.value.header.length
    ensures ds != [] && Outcome(cipher, r, ds, |ds| - 1).Rejected? ==> StateAfter(cipher, r, ds) == AFTER_RESET
  {
  }

  // ----- Completeness -----

  /** From a receiver with no blob, a run in progress is collected packet by packet. */
  lemma {:induction false} RunIsCollected(cipher: Option<PayloadCipher>, r: Receiver, ds: seq<bytes>, held: Receiver)
    requires r.blob.None? && Holds(held, ds)
    ensures StateAfter(cipher, r, ds) == held
    ensures Quiet(cipher, r, ds)
    decreases |ds|
  {
    var n := |ds| - 1;
    if n == 0 {
      assert ds == [ds[0]];
      assert StateAfter(cipher, r, ds[..0]) == r;
      CarriersOfOne(ds[0]);
      FirstChunk(Packet.Decode(ds[0]).value, held.blob.value);
    } else {
      var before := RunFront(cipher, ds, held.blob.value, false);
      hide OnNotification, Run;
      RunIsCollected(cipher, r, ds[..n], before);
      assert StateAfter(cipher, r, ds) == OnNotification(cipher, before, ds[n]).0;
      forall i | 0 <= i < |ds|
        ensures Outcome(cipher, r, ds, i).Unfinished? || Outcome(cipher, r, ds, i).Status?
      {
        FrontOutcome(cipher, r, ds, i);
      }
    }
  }

  /** Nothing is delivered and nothing is rejected. */
  predicate Quiet(cipher: Option<PayloadCipher>, r: Receiver, ds: seq<bytes>) {
    forall i | 0 <= i < |ds| :: Outcome(cipher, r, ds, i).Unfinished? || Outcome(cipher, r, ds, i).Status?
  }

  /** What came of a notification does not depend on the later ones. */
  lemma FrontOutcome(cipher: Option<PayloadCipher>, r: Receiver, ds: seq<bytes>, i: nat)
    requires i < |ds|
    ensures i < |ds| - 1 ==> Outcome(cipher, r, ds, i) == Outcome(cipher, r, ds[..|ds| - 1], i)
    ensures i == |ds| - 1
            ==> Outcome(cipher, r, ds, i) == OnNotification(cipher, StateAfter(cipher, r, ds[..|ds| - 1]), ds[i]).1
  {
    hide OnNotification;
    if i < |ds| - 1 {
      assert ds[..|ds| - 1][..i] == ds[..i];
    }
  }

  /** From a receiver with no blob, a whole run is delivered by its last notification and not before. */
  lemma RunIsDelivered(cipher: Option<PayloadCipher>, r: Receiver, ds: seq<bytes>, a: Assembly)
    requires r.blob.None? && Run(ds, a, true)
    ensures Quiet(cipher, r, ds[..|ds| - 1])
    ensures Outcome(cipher, r, ds, |ds| - 1)
            == if Opened(cipher, a.buffer).Ok? then Payload(Opened(cipher, a.buffer).value, a.header.Encrypted())
               else Rejected
    ensures StateAfter(cipher, r, ds) == AFTER_RESET
  {
    WholeRunHasSeveral(ds, a);
    var n := |ds| - 1;
    var before := RunFront(cipher, ds, a, true);
    hide OnNotification, Run;
    RunIsCollected(cipher, r, ds[..n], before);
    FrontOutcome(cipher, r, ds, n);
  }

  lemma WholeRunHasSeveral(ds: seq<bytes>, a: Assembly)
    requires Run(ds, a, true)
    ensures |ds| > 1
  {
    CarriersBounded(ds);
  }

  lemma {:induction false} CarriersBounded(ds: seq<bytes>)
    requires AllParse(ds)
    ensures |Carriers(ds)| <= |ds|
  {
    if ds != [] {
      CarriersBounded(ds[..|ds| - 1]);
    }
  }

  // ----- Framed payloads -----

  lemma {:induction false} JoinedConcat(a: seq<Packet>, b: seq<Packet>)
    ensures Joined(a + b) == Joined(a) + Joined(b)
    decreases |b|
  {
    if b == [] {
      assert a + b == a;
    } else {
      var n := |b| - 1;
      assert (a + b)[..|a + b| - 1] == a + b[..n];
      JoinedConcat(a, b[..n]);
    }
  }

  /** A packet of a blob after its first: it serializes, fits the room and carries a chunk. */
  predicate Chunk(p: Packet, room: nat) {
    p.Serializable() && |p.payload| <= room && (p.kind.BlobStream? || p.kind.BlobComplete?)
  }

  lemma {:induction false} ContinuationFits(rest: bytes, room: nat, previous: byte)
    requires 0 < room <= PACKET_PAYLOAD_MAX
    ensures var ps := Continuation(rest, room, previous);
            && (rest != [] ==> ps != [])
            && (forall k | 0 <= k < |ps| :: Chunk(ps[k], room))
    decreases |rest|
  {
    if rest != [] {
      ContinuationFits(rest[Min(room, |rest|)..], room, (previous + 1) % 256);
    }
  }

  lemma {:induction false} ContinuationCarriesAll(rest: bytes, room: nat, previous: byte)
    requires 0 < room
    ensures Joined(Continuation(rest, room, previous)) == rest
    decreases |rest|
  {
    if rest != [] {
      var n := Min(room, |rest|);
      var sequence := (previous + 1) % 256;
      var tail := Continuation(rest[n..], room, sequence);
      var p := Continuation(rest, room, previous)[0];
      assert Continuation(rest, room, previous) == [p] + tail && p.payload == rest[..n];
      hide Continuation, Joined;
      ContinuationCarriesAll(rest[n..], room, sequence);
      JoinedConcat([p], tail);
      JoinedOne(p);
      HeadAndTail([], rest, n);
    }
  }

  /** A continuation is numbered on from the packet before it and ends in its only BlobComplete. */
  lemma {:induction false} ContinuationNumbered(rest: bytes, room: nat, p: Packet)
    requires 0 < room <= PACKET_PAYLOAD_MAX && 0 <= p.sequence < 256
    ensures var cs := [p] + Continuation(rest, room, p.sequence);
            Numbered(cs, true)
    decreases |rest|
  {
    if rest != [] {
      var n := Min(room, |rest|);
      var q := Continuation(rest, room, p.sequence)[0];
      var tail := Continuation(rest[n..], room, q.sequence);
      ContinuationNumbered(rest[n..], room, q);
      ContinuationFits(rest[n..], room, q.sequence);
      assert [p] + Continuation(rest, room, p.sequence) == [p] + ([q] + tail);
      PrependNumbered(p, [q] + tail);
    }
  }

  lemma PrependNumbered(p: Packet, cs: seq<Packet>)
    requires cs != [] && Numbered(cs, true)
    requires cs[0].kind == (if |cs| == 1 then BlobComplete else BlobStream)
    requires cs[0].sequence == (p.sequence + 1) % 256
    ensures Numbered([p] + cs, true)
  {
    var all := [p] + cs;
    forall k | 0 < k < |all|
      ensures Follows(all, k, true)
    {
      if k > 1 {
        assert Follows(cs, k - 1, true);
      }
    }
  }

  lemma JoinedOne(p: Packet)
    ensures Joined([p]) == p.payload
  {
  }

  lemma {:induction false} EncodeAllParses(packets: seq<Packet>)
    requires forall k | 0 <= k < |packets| :: packets[k].Serializable()
    ensures EncodeAll(packets).Ok? && Parses(EncodeAll(packets).value, packets)
    decreases |packets|
  {
    if packets != [] {
      var n := |packets| - 1;
      EncodeAllParses(packets[..n]);
      PacketRoundTrip(packets[n], packets[n].Encode().value);
    }
  }

  lemma {:induction false} CarriersAreAll(ds: seq<bytes>, packets: seq<Packet>)
    requires |ds| == |packets|
    requires forall k | 0 <= k < |ds| :: Packet.Decode(ds[k]) == Ok(packets[k]) && !CarriesNothing(packets[k])
    ensures AllParse(ds) && Carriers(ds) == packets
    decreases |ds|
  {
    if ds != [] {
      var n := |ds| - 1;
      CarriersAreAll(ds[..n], packets[..n]);
      assert packets == packets[..n] + [packets[n]];
    }
  }

  /** The bytes of the payload that go on the link. */
  function OnLink(cipher: Option<PayloadCipher>, payload: bytes): bytes {
    if cipher.Some? then cipher.value.encrypt(payload) else payload
  }

  /** The packets of one payload: they all serialize and fit the room, and only the first can start a blob. */
  predicate Shaped(packets: seq<Packet>, room: nat) {
    && packets != []
    && forall k | 0 <= k < |packets| ::
         && packets[k].Serializable() && |packets[k].payload| <= room
         && !CarriesNothing(packets[k])
         && (k > 0 ==> !packets[k].kind.BlobStart?)
  }

  /** The two ways a payload goes out. */
  lemma PacketsCases(sent: bytes, encrypted: bool, mtu: int) returns (room: nat)
    requires PacketsOf(sent, encrypted, mtu).Ok?
    ensures PacketRoom(mtu) == Ok(room) && BLOB_HEADER_SIZE < room <= PACKET_PAYLOAD_MAX && sent != []
    ensures var packets := PacketsOf(sent, encrypted, mtu).value;
            if |sent| + PACKET_HEADER_SIZE <= room then
              packets == [Packet(if encrypted then SingleEncrypted else Single, 1, sent, 0)]
            else
              && |sent| <= BLOB_LENGTH_MAX
              && packets == [StartPacket(sent, encrypted, room)]
                            + Continuation(sent[room - BLOB_HEADER_SIZE..], room, FIRST_SEQUENCE_NUMBER)
  {
    room := PacketRoom(mtu).value;
  }

  lemma PacketsAreShaped(sent: bytes, encrypted: bool, mtu: int)
    requires PacketsOf(sent, encrypted, mtu).Ok?
    ensures Shaped(PacketsOf(sent, encrypted, mtu).value, PacketRoom(mtu).value)
  {
    var room := PacketsCases(sent, encrypted, mtu);
    hide PacketsOf, Continuation;
    if |sent| + PACKET_HEADER_SIZE > room {
      var rest := sent[room - BLOB_HEADER_SIZE..];
      var start := StartPacket(sent, encrypted, room);
      ContinuationFits(rest, room, FIRST_SEQUENCE_NUMBER);
      assert start.Serializable() && |start.payload| <= room;
      hide StartPacket;
      var tail := Continuation(rest, room, FIRST_SEQUENCE_NUMBER);
      var packets := [start] + tail;
      assert forall k | 0 < k < |packets| :: packets[k] == tail[k - 1] && Chunk(packets[k], room);
    }
  }

  /** Each write of a frame parses back as its packet. */
  predicate Parses(ds: seq<bytes>, packets: seq<Packet>) {
    && |ds| == |packets|
    && forall k | 0 <= k < |ds| ::
         Packet.Decode(ds[k]) == Ok(packets[k]) && |ds[k]| == PACKET_HEADER_SIZE + |packets[k].payload|
  }

  lemma FramePackets(cipher: Option<PayloadCipher>, mtu: int, payload: bytes) returns (packets: seq<Packet>)
    requires PacketsOf(OnLink(cipher, payload), cipher.Some?, mtu).Ok?
    ensures PacketsOf(OnLink(cipher, payload), cipher.Some?, mtu) == Ok(packets)
    ensures Shaped(packets, PacketRoom(mtu).value)
    ensures FrameOf(cipher, mtu, payload).Ok? && Parses(FrameOf(cipher, mtu, payload).value, packets)
  {
    packets := PacketsOf(OnLink(cipher, payload), cipher.Some?, mtu).value;
    PacketsAreShaped(OnLink(cipher, payload), cipher.Some?, mtu);
    EncodeAllParses(packets);
  }

  /** Framing succeeds exactly for a payload the protocol can carry, and every write fits the MTU. */
  lemma FrameSucceedsIff(cipher: Option<PayloadCipher>, mtu: int, payload: bytes)
    ensures FrameOf(cipher, mtu, payload).Ok?
            <==> mtu >= MTU_MIN && 0 < |OnLink(cipher, payload)| <= BLOB_LENGTH_MAX
    ensures FrameOf(cipher, mtu, payload).Ok?
            ==> forall k | 0 <= k < |FrameOf(cipher, mtu, payload).value| ::
                  |FrameOf(cipher, mtu, payload).value[k]| + ATT_OVERHEAD <= mtu
  {
    if PacketsOf(OnLink(cipher, payload), cipher.Some?, mtu).Ok? {
      var packets := FramePackets(cipher, mtu, payload);
    }
  }

  /** A frame is one single packet, or one whole run holding the bytes on the link. */
  lemma FrameIsSingleOrRun(cipher: Option<PayloadCipher>, mtu: int, payload: bytes)
    requires FrameOf(cipher, mtu, payload).Ok?
    ensures var ds := FrameOf(cipher, mtu, payload).value;
            var sent := OnLink(cipher, payload);
            if |ds| == 1 then
              Packet.Decode(ds[0]) == Ok(Packet(if cipher.Some? then SingleEncrypted else Single, 1, sent, 0))
            else
              Run(ds, Assembly(BlobHeader.ForPayload(|sent|, cipher.Some?), sent), true)
  {
    var sent := OnLink(cipher, payload);
    var ds := FrameOf(cipher, mtu, payload).value;
    var packets := FramePackets(cipher, mtu, payload);
    var room := PacketsCases(sent, cipher.Some?, mtu);
    hide FrameOf, PacketsOf, Continuation;
    if |sent| + PACKET_HEADER_SIZE > room {
      CarriersAreAll(ds, packets);
      BlobPacketsAreChunks(sent, cipher.Some?, room);
      ContinuationFits(sent[room - BLOB_HEADER_SIZE..], room, FIRST_SEQUENCE_NUMBER);
    }
  }

  lemma BlobPacketsAreChunks(sent: bytes, encrypted: bool, room: nat)
    requires BLOB_HEADER_SIZE < room <= PACKET_PAYLOAD_MAX && room - BLOB_HEADER_SIZE < |sent| <= BLOB_LENGTH_MAX
    ensures Chunks([StartPacket(sent, encrypted, room)]
                   + Continuation(sent[room - BLOB_HEADER_SIZE..], room, FIRST_SEQUENCE_NUMBER),
                   Assembly(BlobHeader.ForPayload(|sent|, encrypted), sent), true)
  {
    var first := room - BLOB_HEADER_SIZE;
    var start := StartPacket(sent, encrypted, room);
    var tail := Continuation(sent[first..], room, FIRST_SEQUENCE_NUMBER);
    var header := BlobHeader.ForPayload(|sent|, encrypted);
    ContinuationNumbered(sent[first..], room, start);
    ContinuationCarriesAll(sent[first..], room, FIRST_SEQUENCE_NUMBER);
    JoinedConcat([start], tail);
    JoinedOne(start);
    HeadAndTail(header.Encode().value, sent, first);
    HeaderRoundTrip(header, sent, Joined([start] + tail));
  }

  lemma HeadAndTail(front: bytes, back: bytes, n: nat)
    requires n <= |back|
    ensures (front + back[..n]) + back[n..] == front + back
  {
  }

  /** The payload as the other end sees it: zero-padded when there is a cipher. */
  function Seen(cipher: Option<PayloadCipher>, payload: bytes): bytes {
    if cipher.Some? then ZeroPad(payload) else payload
  }

  /**
    The writes of a frame, fed to a stream with no blob in progress, give nothing until the last
    and then exactly the payload, and leave no blob in progress.
   */
  lemma FrameRoundTrip(cipher: Option<PayloadCipher>, mtu: int, payload: bytes, r: Receiver)
    requires cipher.Some? ==> cipher.value.Lawful()
    requires FrameOf(cipher, mtu, payload).Ok?
    requires r.blob.None?
    ensures var ds := FrameOf(cipher, mtu, payload).value;
            && ds != []
            && (forall i | 0 <= i < |ds| - 1 :: Outcome(cipher, r, ds, i) == Unfinished)
            && Outcome(cipher, r, ds, |ds| - 1) == Payload(Seen(cipher, payload), cipher.Some?)
            && StateAfter(cipher, r, ds).blob.None?
  {
    var ds := FrameOf(cipher, mtu, payload).value;
    var sent := OnLink(cipher, payload);
    var packets := FramePackets(cipher, mtu, payload);
    FrameIsSingleOrRun(cipher, mtu, payload);
    OpenedIsSeen(cipher, payload);
    hide OnNotification, Run, FrameOf, PacketsOf, StateAfter, Opened, OnLink, Seen, Packet.Decode, Packet.Encode;
    if |ds| == 1 {
      SingleIsDelivered(cipher, r, ds);
    } else {
      var a := Assembly(BlobHeader.ForPayload(|sent|, cipher.Some?), sent);
      RunIsDelivered(cipher, r, ds, a);
      forall i | 0 <= i < |ds| - 1
        ensures Outcome(cipher, r, ds, i) == Unfinished
      {
        FrontOutcome(cipher, r, ds, i);
        assert Packet.Decode(ds[i]) == Ok(packets[i]) && !CarriesNothing(packets[i]);
        StatusMeansNothingCarried(cipher, StateAfter(cipher, r, ds[..i]), ds[i]);
      }
    }
  }

  lemma OpenedIsSeen(cipher: Option<PayloadCipher>, payload: bytes)
    requires cipher.Some? ==> cipher.value.Lawful()
    ensures Opened(cipher, OnLink(cipher, payload)) == Ok(Seen(cipher, payload))
  {
  }

  lemma SingleIsDelivered(cipher: Option<PayloadCipher>, r: Receiver, ds: seq<bytes>)
    requires |ds| == 1 && r.blob.None? && Packet.Decode(ds[0]).Ok?
    requires Packet.Decode(ds[0]).value.kind.Single? || Packet.Decode(ds[0]).value.kind.SingleEncrypted?
    requires Opened(cipher, Packet.Decode(ds[0]).value.payload).Ok?
    ensures var p := Packet.Decode(ds[0]).value;
            Outcome(cipher, r, ds, 0) == Payload(Opened(cipher, p.payload).value, p.kind.SingleEncrypted?)
    ensures StateAfter(cipher, r, ds).blob.None?
  {
  }

  lemma StatusMeansNothingCarried(cipher: Option<PayloadCipher>, r: Receiver, d: bytes)
    ensures OnNotification(cipher, r, d).1.Status?
            ==> Packet.Decode(d).Ok? && CarriesNothing(Packet.Decode(d).value)
  {
  }

  // ----- Recovery -----

  /** Only a BlobStart opens a blob. */
  lemma {:induction false} NoBlobWithoutStart(cipher: Option<PayloadCipher>, r: Receiver, ds: seq<bytes>)
    requires r.blob.None?
    requires forall i | 0 <= i < |ds| :: Packet.Decode(ds[i]).Ok? ==> !Packet.Decode(ds[i]).value.kind.BlobStart?
    ensures StateAfter(cipher, r, ds).blob.None?
    decreases |ds|
  {
    if ds != [] {
      NoBlobWithoutStart(cipher, r, ds[..|ds| - 1]);
    }
  }

  /** A frame leaves no blob in progress in any receiver at all, whether or not it was delivered. */
  lemma FrameClearsReceiver(cipher: Option<PayloadCipher>, mtu: int, payload: bytes, r: Receiver)
    requires cipher.Some? ==> cipher.value.Lawful()
    requires FrameOf(cipher, mtu, payload).Ok?
    ensures StateAfter(cipher, r, FrameOf(cipher, mtu, payload).value).blob.None?
  {
    var ds := FrameOf(cipher, mtu, payload).value;
    FrameStartsPayload(cipher, mtu, payload);
    hide FrameOf, PacketsOf, OnNotification, StateAfter, Packet.Decode, Packet.Encode;
    if r.blob.None? {
      FrameRoundTrip(cipher, mtu, payload, r);
    } else {
      var packets := FramePackets(cipher, mtu, payload);
      var head, tail := ds[..1], ds[1..];
      assert ds == head + tail;
      StateAfterConcat(cipher, r, head, tail);
      FirstOfFrameResets(cipher, r, head);
      assert forall i | 0 <= i < |tail| :: tail[i] == ds[i + 1] && Packet.Decode(ds[i + 1]) == Ok(packets[i + 1]);
      NoBlobWithoutStart(cipher, AFTER_RESET, tail);
    }
  }

  /** The first packet of a frame is a single packet or a BlobStart. */
  lemma FrameStartsPayload(cipher: Option<PayloadCipher>, mtu: int, payload: bytes)
    requires FrameOf(cipher, mtu, payload).Ok?
    ensures var ds := FrameOf(cipher, mtu, payload).value;
            && ds != [] && Packet.Decode(ds[0]).Ok?
            && var kind := Packet.Decode(ds[0]).value.kind;
               kind.Single? || kind.SingleEncrypted? || kind.BlobStart?
  {
    var packets := FramePackets(cipher, mtu, payload);
    var room := PacketsCases(OnLink(cipher, payload), cipher.Some?, mtu);
  }

  /** With a blob in progress, a packet that starts a payload is rejected. */
  lemma FirstOfFrameResets(cipher: Option<PayloadCipher>, r: Receiver, ds: seq<bytes>)
    requires |ds| == 1 && r.blob.Some? && Packet.Decode(ds[0]).Ok?
    requires var kind := Packet.Decode(ds[0]).value.kind; kind.Single? || kind.SingleEncrypted? || kind.BlobStart?
    ensures StateAfter(cipher, r, ds) == AFTER_RESET
  {
  }

  /**
    Whatever state a receiver is in, once one frame has gone in the next one is delivered intact:
    a corrupted blob costs at most one payload.
   */
  lemma ReceiverRecovers(
    cipher: Option<PayloadCipher>, r: Receiver, mtu: int, lost: bytes, next: bytes, sent: seq<bytes>)
    requires cipher.Some? ==> cipher.value.Lawful()
    requires FrameOf(cipher, mtu, lost).Ok? && FrameOf(cipher, mtu, next).Ok?
    requires sent == FrameOf(cipher, mtu, lost).value + FrameOf(cipher, mtu, next).value
    ensures Outcome(cipher, r, sent, |sent| - 1) == Payload(Seen(cipher, next), cipher.Some?)
    ensures StateAfter(cipher, r, sent).blob.None?
  {
    var a, b := FrameOf(cipher, mtu, lost).value, FrameOf(cipher, mtu, next).value;
    FrameClearsReceiver(cipher, mtu, lost, r);
    var middle := StateAfter(cipher, r, a);
    FrameRoundTrip(cipher, mtu, next, middle);
    StateAfterConcat(cipher, r, a, b);
    var n := |b| - 1;
    StateAfterConcat(cipher, r, a, b[..n]);
    assert sent[..|sent| - 1] == a + b[..n];
  }
}
