/**
  One connection to a lock: connecting, then one command at a time and its answer.
  Each method is the code between two awaits, so it runs as one step on the event loop.
 */
module Session {
  import opened Wrappers
  import opened Bytes
  import opened Messages
  import opened Packet

  // ----- What a session is doing -----

  datatype Conn = New | Connecting | Connected | Closed

  /** How far connect() has come. */
  datatype Stage = Fresh | ReadingRevision | Subscribing | ExchangingKeys | ReadingModel | Running | Failed

  /** The future of the command in flight. */
  datatype Future = Unresolved | Answered(response: Response) | Disconnected | Cancelled

  /** What the task holding the command lock is suspended in. */
  datatype Activity =
    | Free
    | Pausing(command: CommandPayload, wake: nat)
    | Writing(command: CommandPayload, left: nat, deadline: nat)
    | Awaiting(command: CommandPayload, deadline: nat)
  {
    predicate InFlight() {
      Writing? || Awaiting?
    }
  }

  datatype Failure =
    | StateFailure | DisconnectedFailure | TimeoutFailure | WrongAnswer | RefusedByLock(status: int)
    | Unsendable | Unreadable | TooOld | Interrupted

  /** How an exchange ended, for the task that ran it. */
  datatype Reply = Returned(response: Response) | Raised(failure: Failure)

  datatype Timing = Timing(timeout: nat, delay: nat, grace: nat)

  datatype PendingView = PendingView(id: CommandId, ref: nat, staticRef: bool, future: Future)

  datatype RefsView = RefsView(isStatic: bool, upcoming: nat)

  /** The state of a session, without the receiver of its packet stream. */
  datatype View = View(
    conn: Conn, stage: Stage, refs: Option<RefsView>, hasCipher: bool,
    pending: Option<PendingView>, readyAt: nat, activity: Activity)

  const INITIAL := View(New, Fresh, None, false, None, 0, Free)

  /** A command that went into the air. */
  datatype Launched = Launched(id: CommandId, ref: nat)

  /** The state after a step, the ref it drew if any, the command it launched if any, and how an exchange ended. */
  datatype Moved = Moved(view: View, drew: Option<nat>, launched: Option<Launched>, reply: Option<Reply>)

  // ----- The steps, as functions of the state -----

  function NotConnected(conn: Conn): Failure {
    if conn == New || conn == Connecting then StateFailure else DisconnectedFailure
  }

  predicate Usable(conn: Conn) {
    conn == Connecting || conn == Connected
  }

  function Stopped(v: View, failure: Failure): Moved {
    Moved(v.(activity := Free), None, None, Some(Raised(failure)))
  }

  /** From drawing a ref to the first write. frames is the number of writes, or None when framing refuses. */
  function Launch(v: View, t: Timing, now: nat, command: CommandPayload, frames: Option<nat>): Moved {
    if v.refs.None? || (!v.hasCipher && command.id != EXCHANGE_KEY_PUB_M) then Stopped(v, StateFailure)
    else
      var refs := v.refs.value;
      var (ref, upcoming) := NextRef(refs.isStatic, refs.upcoming);
      var drawn := v.(refs := Some(RefsView(refs.isStatic, upcoming)));
      if frames.None? then Stopped(drawn, Unsendable).(drew := Some(ref))
      else
        Moved(drawn.(pending := Some(PendingView(command.id, ref, refs.isStatic, Unresolved)),
                     activity := Writing(command, frames.value, now + t.timeout)),
              Some(ref), Some(Launched(command.id, ref)), None)
  }

  /** A task takes the command lock. */
  function Begin(v: View, t: Timing, now: nat, command: CommandPayload, frames: Option<nat>): Moved {
    if !Usable(v.conn) then Stopped(v, NotConnected(v.conn))
    else if now < v.readyAt then Moved(v.(activity := Pausing(command, v.readyAt)), None, None, None)
    else Launch(v, t, now, command, frames)
  }

  /** The pause before a command is over. */
  function EndPause(v: View, t: Timing, now: nat, frames: Option<nat>): Moved
    requires v.activity.Pausing?
  {
    if !Usable(v.conn) then Stopped(v, NotConnected(v.conn))
    else Launch(v, t, now, v.activity.command, frames)
  }

  /** What the exchange makes of an answer under its ref. */
  function Judge(command: CommandPayload, r: Response): Reply {
    if r.status != SUCCESS then Raised(RefusedByLock(r.status))
    else if r.id != ExpectedResponseId(command.id) then Raised(WrongAnswer)
    else Returned(r)
  }

  /** The task finds the future resolved and leaves the exchange. */
  function Finish(v: View, t: Timing, now: nat): Moved
    requires v.activity.InFlight() && v.pending.Some? && v.pending.value.future != Unresolved
  {
    var over := v.(pending := None, activity := Free);
    match v.pending.value.future
    case Answered(r) => Moved(over.(readyAt := now + t.delay), None, None, Some(Judge(v.activity.command, r)))
    case _ => Moved(over, None, None, Some(Raised(DisconnectedFailure)))
  }

  /** One frame is written; after the last the task waits for the answer, unless it is already there. */
  function EndWrite(v: View, t: Timing, now: nat): Moved
    requires v.activity.Writing? && v.pending.Some?
  {
    if v.activity.left > 1 then
      Moved(v.(activity := v.activity.(left := v.activity.left - 1)), None, None, None)
    else if v.pending.value.future == Unresolved then
      Moved(v.(activity := Awaiting(v.activity.command, v.activity.deadline)), None, None, None)
    else Finish(v, t, now)
  }

  /** The deadline ends the exchange, answered or not. Only the static ref starts the grace period. */
  function Expire(v: View, t: Timing, now: nat): Moved
    requires v.activity.InFlight() && v.pending.Some?
  {
    var over := v.(pending := None, activity := Free);
    Moved(if v.pending.value.staticRef then over.(readyAt := now + t.grace) else over,
          None, None, Some(Raised(TimeoutFailure)))
  }

  /** A write that raises, or a cancelled task: the exchange ends with no grace period. */
  function Abandon(v: View): Moved {
    Moved(v.(pending := None, activity := Free), None, None, Some(Raised(Interrupted)))
  }

  /** Does this response complete the command in flight? */
  predicate Completes(v: View, r: Response) {
    && !r.IsEvent()
    && v.pending.Some? && v.pending.value.future == Unresolved
    && r.ref == v.pending.value.ref
    && (v.pending.value.staticRef ==> r.id == ExpectedResponseId(v.pending.value.id))
  }

  function Hear(v: View, r: Response): View {
    if Completes(v, r) then v.(pending := Some(v.pending.value.(future := Answered(r)))) else v
  }

  function FailPending(v: View): View {
    if v.pending.Some? && v.pending.value.future == Unresolved then
      v.(pending := Some(v.pending.value.(future := Disconnected)))
    else v
  }

  function Disconnect(v: View): View {
    if v.conn == Closed then v else FailPending(v.(conn := Closed))
  }

  function Close(v: View): View {
    FailPending(v.(conn := Closed))
  }

  /** The firmware is new enough to connect; below 4.7.90 every command carries the static ref. */
  function RevisionRead(v: View, isStatic: bool): View {
    v.(refs := Some(RefsView(isStatic, COMMAND_REF_MIN)), stage := Subscribing)
  }

  /** connect() raises: the transport is closed. */
  function FailConnect(v: View): View {
    Close(v.(stage := Failed))
  }

  const MODEL_COMMAND := CommandPayload(DEVICE_MODEL_GET, [])

  /**
    connect() goes on, in the same step, when its own exchange has ended: the cipher is set after the key
    exchange, new firmware is asked for its model, and the state becomes CONNECTED whatever it was.
   */
  function Continue(m: Moved, t: Timing, now: nat, readable: bool, frames: Option<nat>): Moved {
    if m.reply.None? || !(m.view.stage.ExchangingKeys? || m.view.stage.ReadingModel?) then m
    else if m.reply.value.Raised? || !readable then m.(view := FailConnect(m.view))
    else if m.view.stage.ExchangingKeys? && m.view.refs.Some? && !m.view.refs.value.isStatic then
      var next := Begin(m.view.(hasCipher := true, stage := ReadingModel), t, now, MODEL_COMMAND, frames);
      if next.reply.Some? then next.(view := FailConnect(next.view)) else next
    else m.(view := m.view.(hasCipher := true, conn := Connected, stage := Running))
  }

  /** connect()'s first exchange. */
  function Subscribed(v: View, t: Timing, now: nat, key: bytes, frames: Option<nat>): Moved {
    var m := Begin(v.(stage := ExchangingKeys), t, now, CommandPayload(EXCHANGE_KEY_PUB_M, key), frames);
    if m.reply.Some? then m.(view := FailConnect(m.view)) else m
  }
}
