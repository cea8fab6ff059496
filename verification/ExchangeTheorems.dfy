/** What a session gets done: which answers it takes, what comes of a request and of connect(), and why one fails. */
module ExchangeTheorems {
  import opened Wrappers
  import opened Bytes
  import opened Messages
  import opened Session
  import opened SessionTheorems

  /** The response an event brings, asked for or not. */
  function Brought(e: Event): Option<Response> {
    match e
    case AnswerArrives(_, r) => Some(r)
    case OtherArrives(r) => Some(r)
    case _ => None
  }

  /**
    In every run, while a command waits: a response is taken exactly when it has the ref of the last command sent and,
    under the static ref, its id; under the counter any id is taken. Anything else changes nothing. The ref is 16, or
    the number of refs drawn before it modulo 127, counted from 1.
   */
  lemma AnswerTakenIff(t: Timing, es: seq<Event>, e: Event)
    requires Legal(t, START, es) && Enabled(t, After(t, START, es), e) && Brought(e).Some?
    requires var v := After(t, START, es).view; v.pending.Some? && v.pending.value.future == Unresolved
    ensures var (s, r) := (After(t, START, es), Brought(e).value);
            && s.sent != [] && s.view.refs.Some?
            && var last := s.sent[|s.sent| - 1];
               var taken := r.ref == last.ref && (s.view.refs.value.isStatic ==> r.id == last.id);
               && last.ref == (if s.view.refs.value.isStatic then 16 else last.draw % 127 + 1)
               && Step(t, s, e).view
                  == if taken then s.view.(pending := Some(s.view.pending.value.(future := Answered(r)))) else s.view
  {
    RunKeepsShape(t, START, es);
    TakenStep(t, After(t, START, es), e);
  }

  lemma TakenStep(t: Timing, s: System, e: Event)
    requires Shape(t, s) && Enabled(t, s, e) && Brought(e).Some?
    requires s.view.pending.Some? && s.view.pending.value.future == Unresolved
    ensures s.sent != [] && s.view.refs.Some?
    ensures var (last, r) := (s.sent[|s.sent| - 1], Brought(e).value);
            var taken := r.ref == last.ref && (s.view.refs.value.isStatic ==> r.id == last.id);
            && last.ref == (if s.view.refs.value.isStatic then 16 else last.draw % 127 + 1)
            && Step(t, s, e).view
               == if taken then s.view.(pending := Some(s.view.pending.value.(future := Answered(r)))) else s.view
  {
    var last := s.sent[|s.sent| - 1];
    assert SentAs(s, last);
    CounterClosedForm(last.draw);
  }

  /** So the lock's own answer to the command that waits is always taken. */
  lemma OwnAnswerIsTaken(t: Timing, es: seq<Event>, r: Response)
    requires Legal(t, START, es)
    requires var s := After(t, START, es);
             s.view.pending.Some? && s.view.pending.value.future == Unresolved
             && s.sent != [] && AnswersCommand(s, |s.sent| - 1, r)
    ensures var s := After(t, START, es);
            Step(t, s, AnswerArrives(|s.sent| - 1, r)).view.pending
            == Some(s.view.pending.value.(future := Answered(r)))
  {
    AnswerTakenIff(t, es, AnswerArrives(|After(t, START, es).sent| - 1, r));
  }

  // ----- A request that is answered -----

  /** All the writes of a command end. */
  function Writes(n: nat): seq<Event> {
    if n == 0 then [] else [WriteEnds(true, None)] + Writes(n - 1)
  }

  lemma {:induction false} RunsOn(t: Timing, s: System, first: seq<Event>, more: seq<Event>)
    requires Legal(t, s, first) && Legal(t, After(t, s, first), more)
    ensures Legal(t, s, first + more) && After(t, s, first + more) == After(t, After(t, s, first), more)
    decreases |first|
  {
    if first == [] {
      assert first + more == more;
    } else {
      assert (first + more)[0] == first[0] && (first + more)[1..] == first[1..] + more;
      hide Step, Enabled;
      RunsOn(t, Step(t, s, first[0]), first[1..], more);
    }
  }

  lemma RunOfOne(t: Timing, s: System, e: Event)
    requires Enabled(t, s, e)
    ensures Legal(t, s, [e]) && After(t, s, [e]) == Step(t, s, e)
  {
    hide Step, Enabled;
    assert Legal(t, Step(t, s, e), []);
    assert [e][1..] == [] && After(t, Step(t, s, e), []) == Step(t, s, e);
  }

  lemma {:induction false} WritesGoOut(t: Timing, s: System, n: nat)
    requires n > 0 && s.view.activity.Writing? && s.view.activity.left == n
    requires s.view.pending.Some? && s.view.pending.value.future == Unresolved
    ensures Legal(t, s, Writes(n))
    ensures var a := s.view.activity;
            After(t, s, Writes(n)) == s.(view := s.view.(activity := Awaiting(a.command, a.deadline)))
    decreases n
  {
    var e := WriteEnds(true, None);
    assert Writes(n)[0] == e && Writes(n)[1..] == Writes(n - 1);
    if n == 1 {
      assert Writes(0) == [];
      assert Writes(1) == [e];
      RunOfOne(t, s, e);
    } else {
      WritesGoOut(t, Step(t, s, e), n - 1);
    }
  }

  /** A command just launched is written, and its answer comes. */
  function Exchanged(n: nat, k: nat, r: Response): seq<Event> {
    Writes(n) + [AnswerArrives(k, r)]
  }

  /** The last command sent is the one in flight, with n writes to go. */
  predicate Launching(s: System, n: nat) {
    && n > 0 && s.sent != [] && s.view.activity.Writing? && s.view.activity.left == n
    && s.view.refs.Some? && s.view.pending.Some?
    && var last := s.sent[|s.sent| - 1];
       s.view.pending.value == PendingView(last.id, last.ref, s.view.refs.value.isStatic, Unresolved)
       && last.ref != EVENT_COMMAND_REF && last.id == s.view.activity.command.id
  }

  lemma ExchangeIsAnswered(t: Timing, s: System, n: nat, r: Response)
    requires Launching(s, n) && AnswersCommand(s, |s.sent| - 1, r)
    ensures var es := Exchanged(n, |s.sent| - 1, r);
            && Legal(t, s, es)
            && var x := After(t, s, es);
               && x.view == s.view.(pending := Some(s.view.pending.value.(future := Answered(r))),
                                    activity := Awaiting(s.view.activity.command, s.view.activity.deadline))
               && x.now == s.now && x.sent == s.sent && x.draws == s.draws
  {
    var e := AnswerArrives(|s.sent| - 1, r);
    WritesGoOut(t, s, n);
    var w := After(t, s, Writes(n));
    RunOfOne(t, w, e);
    RunsOn(t, s, Writes(n), [e]);
  }

  /** Ready for a command: connected, with nothing in flight and the pause over. */
  predicate Ready(s: System) {
    s.view.conn == Connected && s.view.stage.Running? && s.view.activity.Free? && s.now >= s.view.readyAt
  }

  /**
    From every state a run leads to that is ready for a command: the command goes out, its writes end, its answer
    arrives, and the caller gets that answer if its status is 0 and an error with the status otherwise. The session is
    then free again, and ready after command_delay.
   */
  lemma RequestIsAnswered(t: Timing, es: seq<Event>, command: CommandPayload, n: nat, r: Response)
    requires Legal(t, START, es) && Ready(After(t, START, es)) && n > 0
    requires var s := After(t, START, es);
             s.view.refs.Some? && r.id == command.id
             && r.ref == (if s.view.refs.value.isStatic then 16 else s.draws % 127 + 1)
    ensures var s := After(t, START, es);
            var more := [CommandStarts(command, Some(n))] + Exchanged(n, |s.sent|, r);
            && Legal(t, s, more) && Enabled(t, After(t, s, more), TaskWakes(true, None))
            && After(t, s, more).sent == s.sent + [Sent(command.id, r.ref, s.now, s.draws)]
            && var m := Own(t, After(t, s, more), TaskWakes(true, None));
               && m.reply == Some(if r.status == 0 then Returned(r) else Raised(RefusedByLock(r.status)))
               && m.view.conn == Connected && m.view.activity.Free? && m.view.pending.None?
               && m.view.readyAt == s.now + t.delay
  {
    RunKeepsShape(t, START, es);
    var s := After(t, START, es);
    var first := CommandStarts(command, Some(n));
    hide Legal, After;
    var x := Step(t, s, first);
    RequestGoesOut(t, s, command, n, r.ref);
    RunOfOne(t, s, first);
    ExchangeIsAnswered(t, x, n, r);
    var y := After(t, x, Exchanged(n, |s.sent|, r));
    hide Exchanged, Step, Shape, Launching;
    AnswerIsReturned(t, y, r);
    hide Own, Enabled;
    RunsOn(t, s, [first], Exchanged(n, |s.sent|, r));
  }

  lemma RequestGoesOut(t: Timing, s: System, command: CommandPayload, n: nat, ref: nat)
    requires Shape(t, s) && Ready(s) && n > 0
    requires ref == (if s.view.refs.value.isStatic then 16 else s.draws % 127 + 1)
    ensures Enabled(t, s, CommandStarts(command, Some(n)))
    ensures var x := Step(t, s, CommandStarts(command, Some(n)));
            && Launching(x, n) && x.sent == s.sent + [Sent(command.id, ref, s.now, s.draws)]
            && x.view.conn == Connected && x.view.stage.Running? && x.now == s.now
            && x.view.activity.command == command
  {
    CounterClosedForm(s.draws);
  }

  lemma AnswerIsReturned(t: Timing, s: System, r: Response)
    requires s.view.conn == Connected && s.view.stage.Running? && s.view.activity.Awaiting?
    requires s.view.pending.Some? && s.view.pending.value.future == Answered(r) && r.id == s.view.activity.command.id
    ensures Enabled(t, s, TaskWakes(true, None))
    ensures var m := Own(t, s, TaskWakes(true, None));
            && m.reply == Some(if r.status == 0 then Returned(r) else Raised(RefusedByLock(r.status)))
            && m.view.conn == Connected && m.view.activity.Free? && m.view.pending.None?
            && m.view.readyAt == s.now + t.delay
  {
  }

  // ----- Why a request fails -----

  /** The task looks at the future of its command. */
  predicate Looks(s: System, e: Event) {
    s.view.pending.Some? && (e.TaskWakes? || (e.WriteEnds? && s.view.activity.Writing? && s.view.activity.left <= 1))
  }

  /** The task is about to send, if it can. */
  predicate Tries(e: Event) {
    e.PauseEnds? || e.CommandStarts?
  }

  function FramesOf(e: Event): Option<nat> {
    match e
    case PauseEnds(frames) => frames
    case CommandStarts(_, frames) => frames
    case _ => None
  }

  /** What the failure of a request says about the step it ends in. */
  predicate TellsTheCause(t: Timing, s: System, e: Event)
    requires Enabled(t, s, e)
  {
    var reply := Own(t, s, e).reply;
    && (reply == Some(Raised(TimeoutFailure)) <==> e.DeadlinePasses?)
    && (e.DeadlinePasses? ==> s.sent != [] && s.now >= s.sent[|s.sent| - 1].time + t.timeout)
    && (reply == Some(Raised(Interrupted)) <==> e.WriteRaises? || e.TaskCancelled?)
    && (reply == Some(Raised(DisconnectedFailure))
        <==> (Tries(e) && s.view.conn == Closed) || (Looks(s, e) && s.view.pending.value.future == Disconnected))
    && (Own(t, s, e).drew.Some?
        <==> Tries(e) && s.view.conn == Connected && (e.PauseEnds? || s.now >= s.view.readyAt))
    && (reply == Some(Raised(Unsendable)) <==> Own(t, s, e).drew.Some? && FramesOf(e).None?)
    && (Looks(s, e) && s.view.pending.value.future.Answered? ==>
          var status := s.view.pending.value.future.response.status;
          if status != 0 then reply == Some(Raised(RefusedByLock(status)))
          else reply.Some? && (reply.value.Returned? || reply.value.failure == WrongAnswer))
    && (reply.Some? && reply.value.Raised? ==>
          match reply.value.failure
          case RefusedByLock(status) => Looks(s, e) && s.view.pending.value.future.Answered?
          case WrongAnswer => s.view.refs.Some? && !s.view.refs.value.isStatic
          case StateFailure => false
          case Unreadable => false
          case TooOld => false
          case _ => true)
  }

  /**
    Once connect() has returned, in every run: a request times out exactly when its deadline passes, one
    response_timeout after it was sent; it fails as disconnected exactly when it finds the session closed or the link
    dropped before an answer; it is refused by the lock exactly with the status of the answer taken; and an answer under
    the wrong id is an error only under the counter. A ref is drawn for every command that gets as far as being framed,
    sent or not. No request fails for want of a cipher or of refs.
   */
  lemma FailuresTellTheCause(t: Timing, es: seq<Event>, e: Event)
    requires Legal(t, START, es) && Enabled(t, After(t, START, es), e) && After(t, START, es).view.stage.Running?
    ensures TellsTheCause(t, After(t, START, es), e)
  {
    RunKeepsShape(t, START, es);
    CauseOf(t, After(t, START, es), e);
  }

  lemma CauseOf(t: Timing, s: System, e: Event)
    requires Shape(t, s) && Enabled(t, s, e) && s.view.stage.Running?
    ensures TellsTheCause(t, s, e)
  {
  }

  /** An exchange of connect()'s ends closed, or connected under a cipher; only old firmware is not asked its model. */
  predicate ConnectsOrCloses(v: View, m: Moved) {
    && (m.reply.Some? && m.reply.value.Raised? ==> m.view.conn == Closed && m.view.stage.Failed?)
    && (m.view.stage.Running? ==> m.view.conn == Connected && m.view.hasCipher && m.reply.Some?)
    && (v.stage.ExchangingKeys? && m.view.stage.Running? ==> v.refs.Some? && v.refs.value.isStatic)
  }

  lemma FailedConnectCloses(t: Timing, es: seq<Event>, e: Event)
    requires Legal(t, START, es) && Enabled(t, After(t, START, es), e) && MidConnect(After(t, START, es).view.stage)
    ensures ConnectsOrCloses(After(t, START, es).view, Own(t, After(t, START, es), e))
  {
    RunKeepsShape(t, START, es);
    ConnectStep(t, After(t, START, es), e);
  }

  lemma ConnectStep(t: Timing, s: System, e: Event)
    requires Shape(t, s) && Enabled(t, s, e) && MidConnect(s.view.stage)
    ensures ConnectsOrCloses(s.view, Own(t, s, e))
  {
  }

  /** A lost link or close() closes the session whatever it was doing, fails the command in flight, and no more. */
  lemma LossCloses(t: Timing, es: seq<Event>, e: Event)
    requires Legal(t, START, es) && (e.LinkDrops? || e.CloseCalled?)
    ensures var v := After(t, START, es).view;
            var waits := v.pending.Some? && v.pending.value.future == Unresolved;
            Step(t, After(t, START, es), e).view
            == v.(conn := Closed,
                  pending := if waits then Some(v.pending.value.(future := Disconnected)) else v.pending)
  {
    RunKeepsShape(t, START, es);
  }

  // ----- connect() -----

  /** The state behind the key exchange's launch. */
  function KeyLaunched(t: Timing, isStatic: bool, key: bytes, n: nat): System {
    var ref := if isStatic then 16 else 1;
    System(View(Connecting, ExchangingKeys, Some(RefsView(isStatic, if isStatic then 1 else 2)), false,
                Some(PendingView(EXCHANGE_KEY_PUB_M, ref, isStatic, Unresolved)), 0,
                Writing(CommandPayload(EXCHANGE_KEY_PUB_M, key), n, t.timeout)),
           0, [Sent(EXCHANGE_KEY_PUB_M, ref, 0, 0)], 1, {}, [])
  }

  lemma KeyGoesOut(t: Timing, isStatic: bool, key: bytes, n: nat)
    ensures var es := [ConnectCalled, Revision(isStatic), SubscribeDone(key, Some(n))];
            Legal(t, START, es) && After(t, START, es) == KeyLaunched(t, isStatic, key, n)
  {
    var (a, b, c) := (ConnectCalled, Revision(isStatic), SubscribeDone(key, Some(n)));
    var x := Step(t, START, a);
    var y := Step(t, x, b);
    assert Step(t, y, c) == KeyLaunched(t, isStatic, key, n);
    hide KeyLaunched;
    RunOfOne(t, START, a);
    RunOfOne(t, x, b);
    RunOfOne(t, y, c);
    hide Step, Enabled, Legal, After;
    RunsOn(t, START, [a], [b]);
    RunsOn(t, START, [a] + [b], [c]);
    assert [a] + [b] + [c] == [a, b, c];
  }

  /** The lock's answer to connect()'s exchange number k. */
  predicate ConnectAnswer(isStatic: bool, k: nat, r: Response) {
    r.ref == (if isStatic then 16 else k + 1) && r.status == 0 && r.id == (if k == 0 then 0x01 else 0x62)
  }

  /** The model command has just gone out. */
  predicate ModelLaunched(t: Timing, s: System, n: nat) {
    && s.view == View(Connecting, ReadingModel, Some(RefsView(false, 3)), true,
                      Some(PendingView(DEVICE_MODEL_GET, 2, false, Unresolved)), t.delay,
                      Writing(CommandPayload(0x62, []), n, s.now + t.timeout))
    && s.sent == [Sent(EXCHANGE_KEY_PUB_M, 1, 0, 0), Sent(DEVICE_MODEL_GET, 2, s.now, 1)]
  }

  /** The key exchange is answered and its task resumes: old firmware is connected, new firmware is asked its model. */
  lemma KeyIsAnswered(t: Timing, isStatic: bool, key: bytes, n: nat, r: Response, frames: Option<nat>)
    requires n > 0 && ConnectAnswer(isStatic, 0, r) && (!isStatic ==> frames.Some?)
    ensures var s := KeyLaunched(t, isStatic, key, n);
            var es := Exchanged(n, 0, r) + [TaskWakes(true, frames)];
            && Legal(t, s, es)
            && var x := After(t, s, es);
               && (isStatic ==>
                     x.sent == s.sent && x.now == 0
                     && x.view == View(Connected, Running, s.view.refs, true, None, t.delay, Free))
               && (!isStatic && t.delay == 0 ==> ModelLaunched(t, x, frames.value) && x.now == 0)
               && (!isStatic && t.delay > 0 ==>
                     && x.sent == s.sent && x.now == 0 && x.draws == 1
                     && x.view == View(Connecting, ReadingModel, Some(RefsView(false, 2)), true, None, t.delay,
                                       Pausing(MODEL_COMMAND, t.delay)))
  {
    var s := KeyLaunched(t, isStatic, key, n);
    ExchangeIsAnswered(t, s, n, r);
    var x, e := After(t, s, Exchanged(n, 0, r)), TaskWakes(true, frames);
    RunOfOne(t, x, e);
    RunsOn(t, s, Exchanged(n, 0, r), [e]);
  }

  /** The pause before the model command. */
  lemma ModelGoesOut(t: Timing, s: System, n: nat)
    requires t.delay > 0 && s.now == 0 && s.draws == 1 && s.sent == [Sent(EXCHANGE_KEY_PUB_M, 1, 0, 0)]
    requires s.view == View(Connecting, ReadingModel, Some(RefsView(false, 2)), true, None, t.delay,
                            Pausing(MODEL_COMMAND, t.delay))
    ensures var es := [Tick(t.delay), PauseEnds(Some(n))];
            Legal(t, s, es) && ModelLaunched(t, After(t, s, es), n) && After(t, s, es).now == t.delay
  {
    var (a, b) := (Tick(t.delay), PauseEnds(Some(n)));
    var x := Step(t, s, a);
    assert ModelLaunched(t, Step(t, x, b), n);
    hide ModelLaunched;
    RunOfOne(t, s, a);
    RunOfOne(t, x, b);
    hide Step, Enabled, Legal, After;
    RunsOn(t, s, [a], [b]);
    assert [a] + [b] == [a, b];
  }

  lemma PauseIsOver(t: Timing, s: System, n: nat)
    requires t.delay == 0 ==> ModelLaunched(t, s, n) && s.now == 0
    requires t.delay > 0 ==> s.now == 0 && s.draws == 1 && s.sent == [Sent(EXCHANGE_KEY_PUB_M, 1, 0, 0)]
    requires t.delay > 0 ==>
               s.view == View(Connecting, ReadingModel, Some(RefsView(false, 2)), true, None, t.delay,
                              Pausing(MODEL_COMMAND, t.delay))
    ensures var es := if t.delay > 0 then [Tick(t.delay), PauseEnds(Some(n))] else [];
            Legal(t, s, es) && ModelLaunched(t, After(t, s, es), n) && After(t, s, es).now == t.delay
  {
    if t.delay > 0 {
      ModelGoesOut(t, s, n);
    }
  }

  lemma ModelIsAnswered(t: Timing, s: System, n: nat, r: Response)
    requires n > 0 && ModelLaunched(t, s, n) && ConnectAnswer(false, 1, r)
    ensures var es := Exchanged(n, 1, r) + [TaskWakes(true, None)];
            && Legal(t, s, es)
            && var x := After(t, s, es);
               x.sent == s.sent && x.now == s.now
               && x.view == View(Connected, Running, Some(RefsView(false, 3)), true, None, s.now + t.delay, Free)
  {
    ExchangeIsAnswered(t, s, n, r);
    var x, e := After(t, s, Exchanged(n, 1, r)), TaskWakes(true, None);
    RunOfOne(t, x, e);
    RunsOn(t, s, Exchanged(n, 1, r), [e]);
  }

  /** connect() from the start: the key exchange, and under new firmware the model. */
  function ConnectRun(t: Timing, isStatic: bool, key: bytes, n: nat, a: Response, m: nat, b: Response): seq<Event> {
    [ConnectCalled, Revision(isStatic), SubscribeDone(key, Some(n))]
    + (Exchanged(n, 0, a) + [TaskWakes(true, Some(m))])
    + if isStatic then []
      else (if t.delay > 0 then [Tick(t.delay), PauseEnds(Some(m))] else [])
           + (Exchanged(m, 1, b) + [TaskWakes(true, None)])
  }

  /**
    connect() connects: on old firmware with the key exchange alone, under the ref 16; on new firmware with the model
    command after it, under the refs 1 and 2. It is then ready, under a cipher, once command_delay has passed.
   */
  lemma ConnectSucceeds(t: Timing, isStatic: bool, key: bytes, n: nat, a: Response, m: nat, b: Response)
    requires n > 0 && m > 0 && ConnectAnswer(isStatic, 0, a) && ConnectAnswer(isStatic, 1, b)
    ensures var es := ConnectRun(t, isStatic, key, n, a, m, b);
            && Legal(t, START, es)
            && var s := After(t, START, es);
               && s.view.conn == Connected && s.view.stage.Running? && s.view.activity.Free? && s.view.hasCipher
               && s.view.readyAt == s.now + t.delay
               && (isStatic ==> s.sent == [Sent(0x01, 16, 0, 0)])
               && (!isStatic ==> s.sent == [Sent(0x01, 1, 0, 0), Sent(0x62, 2, t.delay, 1)])
  {
    var first := [ConnectCalled, Revision(isStatic), SubscribeDone(key, Some(n))];
    var second := Exchanged(n, 0, a) + [TaskWakes(true, Some(m))];
    var last := Exchanged(m, 1, b) + [TaskWakes(true, None)];
    KeyGoesOut(t, isStatic, key, n);
    KeyIsAnswered(t, isStatic, key, n, a, Some(m));
    var x := After(t, KeyLaunched(t, isStatic, key, n), second);
    if isStatic {
      hide Legal, After;
      RunsOn(t, START, first, second);
      assert ConnectRun(t, isStatic, key, n, a, m, b) == first + second;
    } else {
      var pause := if t.delay > 0 then [Tick(t.delay), PauseEnds(Some(m))] else [];
      PauseIsOver(t, x, m);
      ModelIsAnswered(t, After(t, x, pause), m, b);
      hide Legal, After, ModelLaunched;
      RunsOn(t, START, first, second);
      RunsOn(t, x, pause, last);
      RunsOn(t, START, first + second, pause + last);
      assert ConnectRun(t, isStatic, key, n, a, m, b) == first + second + (pause + last);
    }
  }
}
