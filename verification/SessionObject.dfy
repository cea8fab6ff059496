/** The session object itself: each method is proved to take the step the specification gives. */
module SessionObject {
  import opened Wrappers
  import opened Bytes
  import opened Messages
  import opened Packet
  import P = Packet
  import S = Session

  const MIN_FIRMWARE_CONNECT := (4, 6, 0)
  const MIN_FIRMWARE_ADMIN := (4, 7, 90)

  /** Tuple comparison, major number first. */
  predicate Below(a: (nat, nat, nat), b: (nat, nat, nat)) {
    a.0 < b.0 || (a.0 == b.0 && (a.1 < b.1 || (a.1 == b.1 && a.2 < b.2)))
  }

  /** Versions are compared as numbers whose digits are the parts, to any base none of them reaches. */
  lemma BelowIsOrder(a: (nat, nat, nat), b: (nat, nat, nat), base: nat)
    requires a.0 < base && a.1 < base && a.2 < base && b.0 < base && b.1 < base && b.2 < base
    ensures Below(a, b) <==> (a.0 * base + a.1) * base + a.2 < (b.0 * base + b.1) * base + b.2
  {
    ThreeDigits(a.0, a.1, a.2, b.0, b.1, b.2, base);
  }

  /** The versions connect() refuses, and those above that whose commands all carry the same ref. */
  lemma FirmwareBounds(f: (nat, nat, nat))
    ensures Below(f, MIN_FIRMWARE_CONNECT) <==> f.0 < 4 || (f.0 == 4 && f.1 < 6)
    ensures Below(f, MIN_FIRMWARE_ADMIN) <==> f.0 < 4 || (f.0 == 4 && (f.1 < 7 || (f.1 == 7 && f.2 < 90)))
  {
  }

  /** A command waiting for its answer. The future can be resolved only while it is unresolved. */
  class PendingCommand {
    const id: CommandId
    const ref: nat
    const staticRef: bool
    var future: S.Future

    constructor (id: CommandId, ref: nat, staticRef: bool)
      ensures View() == S.PendingView(id, ref, staticRef, S.Unresolved)
    {
      this.id, this.ref, this.staticRef, future := id, ref, staticRef, S.Unresolved;
    }

    function View(): S.PendingView
      reads this
    {
      S.PendingView(id, ref, staticRef, future)
    }

    method Resolve(outcome: S.Future)
      requires future == S.Unresolved && outcome != S.Unresolved
      modifies this
      ensures future == outcome
    {
      future := outcome;
    }
  }

  /** What a notification says, once the stream has put it together. */
  datatype Heard = Nothing | Said(response: Response)

  function Listen(received: Received): Heard {
    match received
    case Payload(data, _) => (match Response.Decode(data) case Ok(r) => Said(r) case Err(_) => Nothing)
    case _ => Nothing
  }

  /** The writes that carry a command under a ref. */
  function WritesFor(cipher: Option<PayloadCipher>, mtu: int, command: CommandPayload, ref: nat): Result<seq<bytes>> {
    var data :- Command(command.id, ref, command.data, 0).Encode();
    FrameOf(cipher, mtu, data)
  }

  class Session {
    const timing: S.Timing
    const stream: PacketStream
    var conn: S.Conn
    var stage: S.Stage
    var refs: Option<CommandRefCounter>
    var pending: Option<PendingCommand>
    var readyAt: nat
    var activity: S.Activity
    /** The frames of the command in flight that are not written yet. */
    var outgoing: seq<bytes>

    constructor (timing: S.Timing, stream: PacketStream)
      requires stream.Valid() && stream.cipher.None?
      ensures Valid() && this.timing == timing && this.stream == stream && View() == S.INITIAL
    {
      this.timing, this.stream := timing, stream;
      conn, stage, refs, pending := S.New, S.Fresh, None, None;
      readyAt, activity, outgoing := 0, S.Free, [];
    }

    function Footprint(): set<object>
      reads this, stream
    {
      {this} + stream.Footprint() + (if refs.Some? then {refs.value} else {})
          + (if pending.Some? then {pending.value} else {})
    }

    /** A command is pending exactly while its exchange is in flight. */
    predicate Valid()
      reads Footprint()
    {
      && stream.Valid()
      && (refs.Some? ==> refs.value.Valid())
      && (pending.Some? <==> activity.InFlight())
      && (activity.Writing? ==> activity.left == |outgoing|)
    }

    function View(): S.View
      reads Footprint()
    {
      S.View(conn, stage,
             if refs.Some? then Some(S.RefsView(refs.value.isStatic, refs.value.upcoming)) else None,
             stream.cipher.Some?,
             if pending.Some? then Some(pending.value.View()) else None,
             readyAt, activity)
    }

    /** How many writes the next command would take under a cipher, or None when it cannot be framed. */
    function WritesUnder(cipher: Option<PayloadCipher>, command: CommandPayload): Option<nat>
      reads Footprint()
    {
      if refs.None? then None
      else
        var writes := WritesFor(cipher, stream.mtu, command, NextRef(refs.value.isStatic, refs.value.upcoming).0);
        if writes.Ok? then Some(|writes.value|) else None
    }

    function NextWrites(command: CommandPayload): Option<nat>
      reads Footprint()
    {
      WritesUnder(stream.cipher, command)
    }

    method FrameCommand(command: CommandPayload, ref: nat) returns (r: Result<seq<bytes>>)
      ensures r == WritesFor(stream.cipher, stream.mtu, command, ref)
    {
      var data :- Command(command.id, ref, command.data, 0).ToBytes();
      r := stream.Frame(data);
    }

    method Launch(now: nat, command: CommandPayload) returns (reply: Option<S.Reply>)
      requires Valid() && !activity.InFlight()
      modifies this, if refs.Some? then {refs.value} else {}
      ensures Valid() && fresh(Footprint() - old(Footprint())) && refs == old(refs)
      ensures var m := S.Launch(old(View()), timing, now, command, old(NextWrites(command)));
              View() == m.view && reply == m.reply
    {
      hide WritesFor;
      if refs.None? || (stream.cipher.None? && command.id != EXCHANGE_KEY_PUB_M) {
        activity := S.Free;
        return Some(S.Raised(S.StateFailure));
      }
      var ref := refs.value.Next();
      var frames := FrameCommand(command, ref);
      if frames.Err? {
        activity := S.Free;
        return Some(S.Raised(S.Unsendable));
      }
      var waiting := new PendingCommand(command.id, ref, refs.value.isStatic);
      pending := Some(waiting);
      outgoing := frames.value;
      activity := S.Writing(command, |outgoing|, now + timing.timeout);
      reply := None;
    }

    method Begin(now: nat, command: CommandPayload) returns (reply: Option<S.Reply>)
      requires Valid() && activity.Free?
      modifies this, if refs.Some? then {refs.value} else {}
      ensures Valid() && fresh(Footprint() - old(Footprint())) && refs == old(refs)
      ensures var m := S.Begin(old(View()), timing, now, command, old(NextWrites(command)));
              View() == m.view && reply == m.reply
    {
      if conn != S.Connecting && conn != S.Connected {
        return Some(S.Raised(S.NotConnected(conn)));
      }
      if now < readyAt {
        activity := S.Pausing(command, readyAt);
        return None;
      }
      reply := Launch(now, command);
    }

    method EndPause(now: nat) returns (reply: Option<S.Reply>)
      requires Valid() && activity.Pausing?
      modifies this, if refs.Some? then {refs.value} else {}
      ensures Valid() && fresh(Footprint() - old(Footprint())) && refs == old(refs)
      ensures var m := S.EndPause(old(View()), timing, now, old(NextWrites(activity.command)));
              View() == m.view && reply == m.reply
    {
      if conn != S.Connecting && conn != S.Connected {
        activity := S.Free;
        return Some(S.Raised(S.NotConnected(conn)));
      }
      reply := Launch(now, activity.command);
    }

    /** The finally clause: nobody waits for the future any more. */
    method Leave()
      requires Valid() && activity.InFlight()
      modifies this, if pending.Some? then {pending.value} else {}
      ensures Valid() && refs == old(refs)
      ensures View() == old(View()).(pending := None, activity := S.Free)
      ensures old(pending).value.future != S.Unresolved
    {
      if pending.value.future == S.Unresolved {
        pending.value.Resolve(S.Cancelled);
      }
      pending, activity, outgoing := None, S.Free, [];
    }

    method Finish(now: nat) returns (reply: S.Reply)
      requires Valid() && activity.InFlight() && pending.value.future != S.Unresolved
      modifies this, if pending.Some? then {pending.value} else {}
      ensures Valid() && refs == old(refs)
      ensures var m := S.Finish(old(View()), timing, now); View() == m.view && Some(reply) == m.reply
      ensures old(pending).value.future != S.Unresolved
    {
      var command, future := activity.command, pending.value.future;
      Leave();
      match future {
        case Answered(response) =>
          readyAt := now + timing.delay;
          if response.status != SUCCESS {
            return S.Raised(S.RefusedByLock(response.status));
          }
          if response.id != ExpectedResponseId(command.id) {
            return S.Raised(S.WrongAnswer);
          }
          reply := S.Returned(response);
        case _ =>
          reply := S.Raised(S.DisconnectedFailure);
      }
    }

    method EndWrite(now: nat) returns (reply: Option<S.Reply>)
      requires Valid() && activity.Writing?
      modifies this, if pending.Some? then {pending.value} else {}
      ensures Valid() && refs == old(refs)
      ensures var m := S.EndWrite(old(View()), timing, now); View() == m.view && reply == m.reply
    {
      if |outgoing| > 1 {
        outgoing := outgoing[1..];
        activity := S.Writing(activity.command, |outgoing|, activity.deadline);
        return None;
      }
      if pending.value.future == S.Unresolved {
        activity := S.Awaiting(activity.command, activity.deadline);
        return None;
      }
      var ended := Finish(now);
      reply := Some(ended);
    }

    method Expire(now: nat) returns (reply: S.Reply)
      requires Valid() && activity.InFlight() && now >= activity.deadline
      modifies this, if pending.Some? then {pending.value} else {}
      ensures Valid() && refs == old(refs)
      ensures var m := S.Expire(old(View()), timing, now); View() == m.view && Some(reply) == m.reply
      ensures old(pending).value.future != S.Unresolved
    {
      if pending.value.staticRef {
        readyAt := now + timing.grace;
      }
      Leave();
      reply := S.Raised(S.TimeoutFailure);
    }

    /** A cancelled task, or a write that raised. */
    method Abandon() returns (reply: S.Reply)
      requires Valid() && !activity.Free?
      modifies this, if pending.Some? then {pending.value} else {}
      ensures Valid() && refs == old(refs)
      ensures var m := S.Abandon(old(View())); View() == m.view && Some(reply) == m.reply
      ensures old(pending).Some? ==> old(pending).value.future != S.Unresolved
    {
      if pending.Some? {
        Leave();
      }
      activity := S.Free;
      reply := S.Raised(S.Interrupted);
    }

    method FailPending()
      requires Valid()
      modifies if pending.Some? then {pending.value} else {}
      ensures Valid() && View() == S.FailPending(old(View()))
    {
      if pending.Some? && pending.value.future == S.Unresolved {
        pending.value.Resolve(S.Disconnected);
      }
    }

    method OnDisconnect()
      requires Valid()
      modifies Footprint()
      ensures Valid() && View() == S.Disconnect(old(View()))
      ensures old(conn) != S.Closed ==> stream.View() == AFTER_RESET
    {
      if conn == S.Closed {
        return;
      }
      conn := S.Closed;
      stream.Reset();
      FailPending();
    }

    method Close()
      requires Valid()
      modifies this, if pending.Some? then {pending.value} else {}
      ensures Valid() && refs == old(refs) && View() == S.Close(old(View()))
    {
      conn := S.Closed;
      FailPending();
    }

    method OnNotification(data: bytes)
      requires Valid()
      modifies Footprint()
      ensures Valid() && fresh(Footprint() - old(Footprint()))
      ensures stream.View() == P.OnNotification(stream.cipher, old(stream.View()), data).0
      ensures var heard := Listen(P.OnNotification(stream.cipher, old(stream.View()), data).1);
              View() == if heard.Said? then S.Hear(old(View()), heard.response) else old(View())
    {
      hide P.OnNotification, Response.Decode;
      var received := stream.Receive(data);
      if !received.Payload? {
        return;
      }
      var parsed := Response.FromBytes(received.data);
      if parsed.Err? {
        return;
      }
      var response := parsed.value;
      if response.IsEvent() {
        return;
      }
      if pending.None? || pending.value.future != S.Unresolved || response.ref != pending.value.ref {
        return;
      }
      if pending.value.staticRef && response.id != ExpectedResponseId(pending.value.id) {
        return;
      }
      pending.value.Resolve(S.Answered(response));
    }

    // ----- connect() -----

    method Connect() returns (reply: Option<S.Reply>)
      requires Valid()
      modifies this
      ensures Valid()
      ensures if old(conn) != S.New then View() == old(View()) && reply == Some(S.Raised(S.StateFailure))
              else View() == old(View()).(conn := S.Connecting, stage := S.ReadingRevision) && reply == None
    {
      if conn != S.New {
        return Some(S.Raised(S.StateFailure));
      }
      conn, stage := S.Connecting, S.ReadingRevision;
      reply := None;
    }

    /** The firmware revision is read; None when it does not parse. */
    method OnRevision(firmware: Option<(nat, nat, nat)>) returns (reply: Option<S.Reply>)
      requires Valid() && stage.ReadingRevision? && activity.Free?
      modifies this
      ensures Valid() && fresh(Footprint() - old(Footprint()))
      ensures firmware.None? ==> View() == S.FailConnect(old(View())) && reply == Some(S.Raised(S.Unreadable))
      ensures firmware.Some? && Below(firmware.value, MIN_FIRMWARE_CONNECT) ==>
                View() == S.FailConnect(old(View())) && reply == Some(S.Raised(S.TooOld))
      ensures firmware.Some? && !Below(firmware.value, MIN_FIRMWARE_CONNECT) ==>
                View() == S.RevisionRead(old(View()), Below(firmware.value, MIN_FIRMWARE_ADMIN)) && reply == None
    {
      if firmware.None? {
        FailConnect();
        return Some(S.Raised(S.Unreadable));
      }
      if Below(firmware.value, MIN_FIRMWARE_CONNECT) {
        FailConnect();
        return Some(S.Raised(S.TooOld));
      }
      var counter := new CommandRefCounter(Below(firmware.value, MIN_FIRMWARE_ADMIN));
      refs := Some(counter);
      stage := S.Subscribing;
      reply := None;
    }

    method FailConnect()
      requires Valid()
      modifies this, if pending.Some? then {pending.value} else {}
      ensures Valid() && refs == old(refs) && View() == S.FailConnect(old(View()))
    {
      stage := S.Failed;
      Close();
    }

    method OnSubscribed(now: nat, key: bytes) returns (reply: Option<S.Reply>)
      requires Valid() && stage.Subscribing? && activity.Free?
      modifies this, if refs.Some? then {refs.value} else {}
      ensures Valid() && fresh(Footprint() - old(Footprint()))
      ensures var m := S.Subscribed(old(View()), timing, now, key,
          old(NextWrites(CommandPayload(EXCHANGE_KEY_PUB_M, key))));
              View() == m.view && reply == m.reply
    {
      stage := S.ExchangingKeys;
      reply := Begin(now, CommandPayload(EXCHANGE_KEY_PUB_M, key));
      if reply.Some? {
        FailConnect();
      }
    }

    /** What connect() does when its own exchange has ended; cipher is the link cipher the answer gives. */
    method Continue(now: nat, ended: S.Reply, readable: bool, cipher: PayloadCipher) returns (reply: Option<S.Reply>)
      requires Valid() && activity.Free? && (stage.ExchangingKeys? || stage.ReadingModel?)
      requires stage.ReadingModel? ==> stream.cipher.Some?
      modifies this, stream`cipher, if refs.Some? then {refs.value} else {}
      ensures Valid() && fresh(Footprint() - old(Footprint()))
      ensures var frames := old(WritesUnder(Some(cipher), S.MODEL_COMMAND));
              var m := S.Continue(S.Moved(old(View()), None, None, Some(ended)), timing, now, readable, frames);
              View() == m.view && reply == m.reply
    {
      if ended.Raised? || !readable {
        FailConnect();
        return Some(ended);
      }
      if stage.ExchangingKeys? {
        stream.cipher := Some(cipher);
        if refs.Some? && !refs.value.isStatic {
          stage := S.ReadingModel;
          reply := Begin(now, S.MODEL_COMMAND);
          if reply.Some? {
            FailConnect();
          }
          return;
        }
      }
      conn, stage := S.Connected, S.Running;
      reply := Some(ended);
    }
  }
}
