/**
  What holds over every run of a session: whatever order commands, writes, notifications, deadlines,
  disconnects and closes come in, and which further assumptions it takes for a late answer never to be
  mistaken for the answer to a newer command.
 */
module SessionTheorems {
  import opened Wrappers
  import opened Bytes
  import opened Messages
  import opened Session

  // ----- A session, its clock and the lock's answers -----

  /** A command that went out: when, and as which draw of the ref counter. */
  datatype Sent = Sent(id: CommandId, ref: nat, time: nat, draw: nat)

  /** The command with this number was completed by the answer to that one. */
  datatype Completion = Completion(command: nat, answerOf: nat)

  datatype System = System(
    view: View, now: nat, sent: seq<Sent>, draws: nat, answered: set<nat>, completions: seq<Completion>)

  const START := System(INITIAL, 0, [], 0, {}, [])

  datatype Event =
    | Tick(elapsed: nat)
    | ConnectCalled
    | Revision(isStatic: bool)
    | ConnectFails
    | SubscribeDone(key: bytes, frames: Option<nat>)
    | CommandStarts(command: CommandPayload, frames: Option<nat>)
    | PauseEnds(frames: Option<nat>)
    | WriteEnds(readable: bool, frames: Option<nat>)
    | TaskWakes(readable: bool, frames: Option<nat>)
    | DeadlinePasses
    | WriteRaises
    | TaskCancelled
    | AnswerArrives(k: nat, response: Response)
    | OtherArrives(response: Response)
    | LinkDrops
    | CloseCalled

  /** The lock answers a command under its ref and with the id the command expects. */
  predicate AnswersCommand(s: System, k: nat, r: Response) {
    k < |s.sent| && r.ref == s.sent[k].ref && r.id == ExpectedResponseId(s.sent[k].id)
  }

  predicate Enabled(t: Timing, s: System, e: Event) {
    var v := s.view;
    match e
    case ConnectCalled => v.conn == New
    case Revision(_) => v.stage.ReadingRevision?
    case ConnectFails => v.stage.ReadingRevision? || v.stage.Subscribing?
    case SubscribeDone(_, _) => v.stage.Subscribing?
    // send() asks for CONNECTED before it waits for the lock, so connect() has returned.
    case CommandStarts(_, _) => v.stage.Running? && v.activity.Free?
    case PauseEnds(_) => v.activity.Pausing? && s.now >= v.activity.wake
    case WriteEnds(_, _) => v.activity.Writing? && v.pending.Some?
    case TaskWakes(_, _) => v.activity.Awaiting? && v.pending.Some? && v.pending.value.future != Unresolved
    case DeadlinePasses => v.activity.InFlight() && v.pending.Some? && s.now >= v.activity.deadline
    case WriteRaises => v.activity.Writing?
    case TaskCancelled => !v.activity.Free?
    case AnswerArrives(k, r) => AnswersCommand(s, k, r)
    // Anything else the lock may send, asked for or not: events, wrong ids, refs nobody waits for.
    case OtherArrives(_) => true
    case _ => true
  }

  /** The step of the session's own task. The other events are not its steps. */
  function Own(t: Timing, s: System, e: Event): Moved
    requires Enabled(t, s, e)
  {
    var v := s.view;
    match e
    case SubscribeDone(key, frames) => Subscribed(v, t, s.now, key, frames)
    case CommandStarts(command, frames) => Begin(v, t, s.now, command, frames)
    case PauseEnds(frames) => Continue(EndPause(v, t, s.now, frames), t, s.now, false, None)
    case WriteEnds(readable, frames) => Continue(EndWrite(v, t, s.now), t, s.now, readable, frames)
    case TaskWakes(readable, frames) => Continue(Finish(v, t, s.now), t, s.now, readable, frames)
    case DeadlinePasses => Continue(Expire(v, t, s.now), t, s.now, false, None)
    case WriteRaises => Continue(Abandon(v), t, s.now, false, None)
    case TaskCancelled => Continue(Abandon(v), t, s.now, false, None)
    case ConnectCalled => Moved(v.(conn := Connecting, stage := ReadingRevision), None, None, None)
    case Revision(isStatic) => Moved(RevisionRead(v, isStatic), None, None, None)
    case ConnectFails => Moved(FailConnect(v), None, None, None)
    case OtherArrives(r) => Moved(Hear(v, r), None, None, None)
    case AnswerArrives(_, r) => Moved(Hear(v, r), None, None, None)
    case LinkDrops => Moved(Disconnect(v), None, None, None)
    case CloseCalled => Moved(Close(v), None, None, None)
    case Tick(_) => Moved(v, None, None, None)
  }

  function Step(t: Timing, s: System, e: Event): System
    requires Enabled(t, s, e)
  {
    var m := Own(t, s, e);
    var s' := s.(
      view := m.view,
      draws := s.draws + (if m.drew.Some? then 1 else 0),
      sent := if m.launched.Some? then s.sent + [Sent(m.launched.value.id, m.launched.value.ref, s.now, s.draws)]
          else s.sent);
    match e
    case Tick(elapsed) => s'.(now := s.now + elapsed)
    case AnswerArrives(k, r) =>
      s'.(answered := s.answered + {k},
          completions := if Completes(s.view, r) then s.completions + [Completion(|s.sent| - 1, k)] else s.completions)
    case _ => s'
  }

  predicate Legal(t: Timing, s: System, es: seq<Event>)
    decreases |es|
  {
    es == [] || (Enabled(t, s, es[0]) && Legal(t, Step(t, s, es[0]), es[1..]))
  }

  function After(t: Timing, s: System, es: seq<Event>): System
    requires Legal(t, s, es)
    decreases |es|
  {
    if es == [] then s else After(t, Step(t, s, es[0]), es[1..])
  }

  // ----- What every run keeps -----

  predicate Talking(stage: Stage) {
    stage.ExchangingKeys? || stage.ReadingModel? || stage.Running?
  }

  /** connect()'s own exchanges are still going on. */
  predicate MidConnect(stage: Stage) {
    stage.ExchangingKeys? || stage.ReadingModel?
  }

  predicate StageShape(v: View) {
    && (v.conn == New ==> v.stage.Fresh?)
    && (v.stage.Fresh? ==> v.conn == New || v.conn == Closed)
    && (v.conn == Connected ==> v.stage.Running?)
    && (v.stage.Failed? ==> v.conn == Closed)
    && (v.stage.Running? ==> v.conn == Connected || v.conn == Closed)
    && (!Talking(v.stage) ==> v.activity.Free?)
    && (v.stage.Subscribing? || Talking(v.stage) ==> v.refs.Some?)
    && (v.stage.Fresh? || v.stage.ReadingRevision? ==> v.refs.None?)
    && (v.stage.ReadingModel? ==> v.hasCipher && !v.refs.value.isStatic)
    && (v.stage.Running? ==> v.hasCipher)
  }

  /** A command is pending exactly while it is in flight, and a closed session has nothing left to wait for. */
  predicate PendingShape(v: View) {
    && (v.pending.Some? <==> v.activity.InFlight())
    && (v.activity.Pausing? ==> v.activity.wake == v.readyAt)
    && (v.pending.Some? ==>
          && v.refs.Some? && v.pending.value.staticRef == v.refs.value.isStatic
          && v.pending.value.id == v.activity.command.id
          && (v.conn == Closed ==> v.pending.value.future != Unresolved)
          && FutureShape(v.conn, v.pending.value))
  }

  /** An answer taken for a command is no event, carries its ref and, under the static ref, the expected id. */
  predicate FutureShape(conn: Conn, p: PendingView) {
    match p.future
    case Unresolved => true
    case Cancelled => false
    case Disconnected => conn == Closed
    case Answered(r) => !r.IsEvent() && r.ref == p.ref && (p.staticRef ==> r.id == ExpectedResponseId(p.id))
  }

  predicate ViewShape(v: View) {
    StageShape(v) && PendingShape(v) && (MidConnect(v.stage) ==> !v.activity.Free?)
  }

  /**
    What a step of the task did to the refs and to the command in flight: a ref is drawn from the counter
    only on a usable connection, what is launched goes out under the drawn ref and, without a cipher, is the
    key exchange; otherwise a command still in flight is the one there was.
   */
  predicate Effect(t: Timing, now: nat, v: View, m: Moved) {
    var after := m.view;
    && (m.drew.Some? ==>
          && v.refs.Some? && Usable(v.conn)
          && m.drew.value == NextRef(v.refs.value.isStatic, v.refs.value.upcoming).0
          && after.refs == Some(RefsView(v.refs.value.isStatic,
              NextRef(v.refs.value.isStatic, v.refs.value.upcoming).1)))
    && (m.drew.None? ==> m.launched.None? && (v.refs.Some? ==> after.refs == v.refs))
    && (m.launched.Some? ==>
          && m.drew == Some(m.launched.value.ref)
          && (after.hasCipher || m.launched.value.id == EXCHANGE_KEY_PUB_M)
          && after.activity.Writing? && after.activity.deadline == now + t.timeout
          && after.activity.command.id == m.launched.value.id
          && after.pending == Some(PendingView(m.launched.value.id, m.launched.value.ref, v.refs.value.isStatic,
              Unresolved)))
    && (m.launched.None? && after.activity.InFlight() && after.pending.Some? ==>
          && v.activity.InFlight() && v.pending.Some?
          && after.activity.deadline == v.activity.deadline
          && after.pending.value.(future := Unresolved) == v.pending.value.(future := Unresolved))
  }

  /** Between an exchange and what connect() does next. */
  predicate Ended(m: Moved) {
    && StageShape(m.view) && PendingShape(m.view) && Talking(m.view.stage)
    && (m.reply.Some? <==> m.view.activity.Free?)
  }

  lemma BeginKeeps(t: Timing, now: nat, v: View, command: CommandPayload, frames: Option<nat>)
    requires StageShape(v) && PendingShape(v) && Talking(v.stage) && v.activity.Free?
    ensures Ended(Begin(v, t, now, command, frames)) && Effect(t, now, v, Begin(v, t, now, command, frames))
  {
  }

  /** What connect() may go on from: an exchange left on a connection no better than it was, with no ref drawn. */
  predicate Left(t: Timing, now: nat, v: View, m: Moved) {
    && Ended(m) && Effect(t, now, v, m)
    && (m.reply.Some? && m.reply.value.Returned? ==> m.drew.None? && v.refs == m.view.refs)
    && (Usable(m.view.conn) ==> Usable(v.conn))
  }

  lemma EndPauseKeeps(t: Timing, now: nat, v: View, frames: Option<nat>)
    requires StageShape(v) && PendingShape(v) && v.activity.Pausing?
    ensures Left(t, now, v, EndPause(v, t, now, frames))
  {
  }

  /** The ways out of an exchange in flight draw and launch nothing. */
  lemma LeavingKeeps(t: Timing, now: nat, v: View)
    requires StageShape(v) && PendingShape(v) && !v.activity.Free?
    ensures Left(t, now, v, Abandon(v))
    ensures v.activity.InFlight() ==> Left(t, now, v, Expire(v, t, now))
    ensures v.activity.InFlight() && v.pending.value.future != Unresolved ==> Left(t, now, v, Finish(v, t, now))
    ensures v.activity.Writing? ==> Left(t, now, v, EndWrite(v, t, now))
  {
  }

  lemma ContinueKeeps(t: Timing, now: nat, v: View, m: Moved, readable: bool, frames: Option<nat>)
    requires Left(t, now, v, m)
    ensures ViewShape(Continue(m, t, now, readable, frames).view)
    ensures Effect(t, now, v, Continue(m, t, now, readable, frames))
  {
  }

  /** Events in which the task holding the command lock takes a step. */
  predicate TaskSteps(e: Event) {
    || e.SubscribeDone? || e.CommandStarts? || e.PauseEnds? || e.WriteEnds? || e.TaskWakes? || e.DeadlinePasses?
    || e.WriteRaises? || e.TaskCancelled?
  }

  lemma OutsideKeeps(t: Timing, s: System, e: Event)
    requires ViewShape(s.view) && Enabled(t, s, e) && !TaskSteps(e)
    ensures ViewShape(Own(t, s, e).view) && Effect(t, s.now, s.view, Own(t, s, e))
  {
  }

  lemma StartKeeps(t: Timing, s: System, e: Event)
    requires ViewShape(s.view) && Enabled(t, s, e) && (e.SubscribeDone? || e.CommandStarts?)
    ensures ViewShape(Own(t, s, e).view) && Effect(t, s.now, s.view, Own(t, s, e))
  {
    var v := s.view;
    if e.SubscribeDone? {
      BeginKeeps(t, s.now, v.(stage := ExchangingKeys), CommandPayload(EXCHANGE_KEY_PUB_M, e.key), e.frames);
    } else {
      BeginKeeps(t, s.now, v, e.command, e.frames);
    }
  }

  lemma OwnKeeps(t: Timing, s: System, e: Event)
    requires ViewShape(s.view) && Enabled(t, s, e)
    ensures ViewShape(Own(t, s, e).view) && Effect(t, s.now, s.view, Own(t, s, e))
  {
    hide Effect, Ended, Left, Continue, EndPause, EndWrite, Finish, Expire, Abandon;
    var v := s.view;
    match e
    case SubscribeDone(_, _) => StartKeeps(t, s, e);
    case CommandStarts(_, _) => StartKeeps(t, s, e);
    case PauseEnds(frames) =>
      EndPauseKeeps(t, s.now, v, frames);
      ContinueKeeps(t, s.now, v, EndPause(v, t, s.now, frames), false, None);
    case WriteEnds(readable, frames) =>
      LeavingKeeps(t, s.now, v);
      ContinueKeeps(t, s.now, v, EndWrite(v, t, s.now), readable, frames);
    case TaskWakes(readable, frames) =>
      LeavingKeeps(t, s.now, v);
      ContinueKeeps(t, s.now, v, Finish(v, t, s.now), readable, frames);
    case DeadlinePasses =>
      LeavingKeeps(t, s.now, v);
      ContinueKeeps(t, s.now, v, Expire(v, t, s.now), false, None);
    case WriteRaises =>
      LeavingKeeps(t, s.now, v);
      ContinueKeeps(t, s.now, v, Abandon(v), false, None);
    case TaskCancelled =>
      LeavingKeeps(t, s.now, v);
      ContinueKeeps(t, s.now, v, Abandon(v), false, None);
    case _ => OutsideKeeps(t, s, e);
  }

  /** Every command sent carries the ref of its own draw. */
  predicate SentShape(s: System) {
    && (s.view.refs.None? ==> s.draws == 0 && s.sent == [])
    && (s.view.refs.Some? ==>
          && s.view.refs.value.upcoming == UpcomingAfter(s.view.refs.value.isStatic, s.draws)
          && forall k | 0 <= k < |s.sent| :: SentAs(s, s.sent[k]))
    && (forall j, k | 0 <= j < k < |s.sent| :: s.sent[j].draw < s.sent[k].draw)
  }

  predicate SentAs(s: System, x: Sent) {
    && x.time <= s.now && x.draw < s.draws
    && (s.view.refs.Some? ==> x.ref == RefOf(s.view.refs.value.isStatic, x.draw))
  }

  /** The command in flight is the last one sent, and its deadline one timeout after it. */
  predicate CurrentShape(t: Timing, s: System) {
    s.view.activity.InFlight() && s.view.pending.Some? ==>
      && s.sent != []
      && var last := s.sent[|s.sent| - 1];
         && s.view.pending.value.id == last.id && s.view.pending.value.ref == last.ref
         && s.view.activity.deadline == last.time + t.timeout
  }

  predicate Shape(t: Timing, s: System) {
    ViewShape(s.view) && SentShape(s) && CurrentShape(t, s)
  }

  lemma StepKeepsShape(t: Timing, s: System, e: Event)
    requires Shape(t, s) && Enabled(t, s, e)
    ensures Shape(t, Step(t, s, e))
  {
    OwnKeeps(t, s, e);
    RevisionDrawsNothing(t, s, e);
    hide Own, ViewShape, Enabled;
    var s' := Step(t, s, e);
    forall k | 0 <= k < |s'.sent|
      ensures SentAs(s', s'.sent[k])
    {
      if k < |s.sent| {
        assert SentAs(s, s.sent[k]);
      }
    }
  }

  lemma RevisionDrawsNothing(t: Timing, s: System, e: Event)
    requires Shape(t, s) && Enabled(t, s, e)
    ensures var m := Own(t, s, e);
            s.view.refs.None? && m.view.refs.Some? ==>
              m.view.refs.value.upcoming == UpcomingAfter(m.view.refs.value.isStatic, 0)
  {
  }

  lemma {:induction false} RunKeepsShape(t: Timing, s: System, es: seq<Event>)
    requires Shape(t, s) && Legal(t, s, es)
    ensures Shape(t, After(t, s, es))
    decreases |es|
  {
    if es != [] {
      StepKeepsShape(t, s, es[0]);
      RunKeepsShape(t, Step(t, s, es[0]), es[1..]);
    }
  }

  // ----- What one exchange guarantees -----

  /** The task of the exchange in flight finds its answer, now or with the last write. */
  predicate TakesAnswer(s: System, e: Event) {
    && (e.TaskWakes? || (e.WriteEnds? && s.view.activity.Writing? && s.view.activity.left <= 1))
    && s.view.pending.Some? && s.view.pending.value.future.Answered?
  }

  /**
    In every run: a step draws a ref only on a connecting or connected session, sends in the clear only the
    key exchange, and returns only a successful answer with the command's ref and id that is no event. An
    exchange that ends leaves nothing pending, an answer that was taken is returned exactly when it succeeded under
    the expected id, and a future once resolved is never resolved otherwise.
   */
  lemma ExchangeGuarantees(t: Timing, es: seq<Event>, e: Event)
    requires Legal(t, START, es) && Enabled(t, After(t, START, es), e)
    ensures var s := After(t, START, es);
            var m := Own(t, s, e);
            && (m.drew.Some? ==> Usable(s.view.conn))
            && (m.launched.Some? ==> m.view.hasCipher || m.launched.value.id == EXCHANGE_KEY_PUB_M)
            && (m.reply.Some? && m.reply.value.Returned? ==>
                  && s.view.pending.Some? && s.view.activity.InFlight()
                  && var r, p := m.reply.value.response, s.view.pending.value;
                     r.ref == p.ref && r.id == ExpectedResponseId(p.id) && r.status == SUCCESS && !r.IsEvent())
            && (m.reply.Some? ==> m.view.pending.None?)
            && (TakesAnswer(s, e) && s.view.stage.Running? ==>
                  && m.reply.Some?
                  && var r, p := s.view.pending.value.future.response, s.view.pending.value;
                     m.reply.value.Returned? <==> r.status == SUCCESS && r.id == ExpectedResponseId(p.id))
            && (s.view.pending.Some? && s.view.pending.value.future != Unresolved && m.launched.None?
                && m.view.pending.Some?
                ==> m.view.pending == s.view.pending)
  {
    RunKeepsShape(t, START, es);
    OwnKeeps(t, After(t, START, es), e);
    ReturnedIsRight(t, After(t, START, es), e);
  }

  lemma ReturnedIsRight(t: Timing, s: System, e: Event)
    requires ViewShape(s.view) && Enabled(t, s, e)
    ensures var m := Own(t, s, e);
            && (m.reply.Some? && m.reply.value.Returned? ==>
                  && s.view.pending.Some? && s.view.activity.InFlight()
                  && var r, p := m.reply.value.response, s.view.pending.value;
                     r.ref == p.ref && r.id == ExpectedResponseId(p.id) && r.status == SUCCESS && !r.IsEvent())
            && (m.reply.Some? ==> m.view.pending.None?)
            && (TakesAnswer(s, e) && s.view.stage.Running? ==>
                  && m.reply.Some?
                  && var r, p := s.view.pending.value.future.response, s.view.pending.value;
                     m.reply.value.Returned? <==> r.status == SUCCESS && r.id == ExpectedResponseId(p.id))
            && (s.view.pending.Some? && s.view.pending.value.future != Unresolved && m.launched.None?
                && m.view.pending.Some?
                ==> m.view.pending == s.view.pending)
  {
  }

  /**
    In every run: no command goes out before the ready time. That time moves exactly when an exchange ends with an
    answer, to command_delay from now, or under the static ref at its deadline, to late_answer_grace from now.
   */
  lemma PausesAreKept(t: Timing, es: seq<Event>, e: Event)
    requires Legal(t, START, es) && Enabled(t, After(t, START, es), e)
    ensures var s := After(t, START, es);
            var m := Own(t, s, e);
            && (m.launched.Some? ==> s.now >= m.view.readyAt)
            && m.view.readyAt
               == if TakesAnswer(s, e) then s.now + t.delay
                  else if e.DeadlinePasses? && s.view.refs.Some? && s.view.refs.value.isStatic then s.now + t.grace
                  else s.view.readyAt
  {
    RunKeepsShape(t, START, es);
    ReadyStep(t, After(t, START, es), e);
  }

  lemma ReadyStep(t: Timing, s: System, e: Event)
    requires ViewShape(s.view) && Enabled(t, s, e)
    ensures var m := Own(t, s, e);
            && (m.launched.Some? ==> s.now >= m.view.readyAt)
            && m.view.readyAt
               == if TakesAnswer(s, e) then s.now + t.delay
                  else if e.DeadlinePasses? && s.view.refs.Some? && s.view.refs.value.isStatic then s.now + t.grace
                  else s.view.readyAt
  {
  }

  /** The end of connect()'s last exchange, with an answer it can read. */
  predicate LastConnectAnswer(t: Timing, s: System, e: Event)
    requires Enabled(t, s, e)
  {
    var v := s.view;
    && ((e.TaskWakes? && e.readable) || (e.WriteEnds? && e.readable && v.activity.left <= 1))
    && v.pending.Some? && v.pending.value.future.Answered?
    && Judge(v.activity.command, v.pending.value.future.response).Returned?
    && (v.stage.ReadingModel? || (v.stage.ExchangingKeys? && v.refs.Some? && v.refs.value.isStatic))
  }

  /**
    A closed session stays closed except in one case: a disconnect or close() that lands after connect()'s
    last answer arrived and before its task resumed is overwritten by CONNECTED.
   */
  lemma ClosedIsLeftOnlyByConnect(t: Timing, es: seq<Event>, e: Event)
    requires Legal(t, START, es) && Enabled(t, After(t, START, es), e)
    requires After(t, START, es).view.conn == Closed
    ensures Step(t, After(t, START, es), e).view.conn != Closed <==> LastConnectAnswer(t, After(t, START, es), e)
  {
    RunKeepsShape(t, START, es);
    ClosedStep(t, After(t, START, es), e);
  }

  lemma ClosedStep(t: Timing, s: System, e: Event)
    requires Shape(t, s) && Enabled(t, s, e) && s.view.conn == Closed
    ensures Own(t, s, e).view.conn != Closed <==> LastConnectAnswer(t, s, e)
  {
  }

  // ----- Late answers under the counter -----

  predicate Congruent(s: System, c: Completion) {
    && c.command < |s.sent| && c.answerOf < |s.sent|
    && (s.view.refs.Some? && !s.view.refs.value.isStatic
        ==> (s.sent[c.command].draw - s.sent[c.answerOf].draw) % 127 == 0)
  }

  predicate AllCongruent(s: System) {
    forall i | 0 <= i < |s.completions| :: Congruent(s, s.completions[i])
  }

  /** An answer that completes a command under the counter is one to a command a multiple of 127 draws away. */
  lemma AnswerIsCongruent(t: Timing, s: System, e: Event)
    requires Shape(t, s) && Enabled(t, s, e) && e.AnswerArrives? && Completes(s.view, e.response)
    ensures s.sent != [] && Congruent(s, Completion(|s.sent| - 1, e.k))
  {
    var last := |s.sent| - 1;
    assert SentAs(s, s.sent[last]) && SentAs(s, s.sent[e.k]);
    CounterRefsCollideEvery127(s.sent[e.k].draw, s.sent[last].draw);
  }

  /** What a step does to the record: sent commands stay, and only a completing answer is a completion. */
  lemma StepRecords(t: Timing, s: System, e: Event)
    requires Shape(t, s) && Enabled(t, s, e)
    ensures var s' := Step(t, s, e);
            && s.sent <= s'.sent && |s'.sent| <= |s.sent| + 1
            && (s'.sent != s.sent ==>
                  !e.AnswerArrives? && s'.view.activity.InFlight()
                  && s'.sent[|s.sent|].time == s.now)
            && s'.completions == s.completions
                                 + (if e.AnswerArrives? && Completes(s.view, e.response)
                                     then [Completion(|s.sent| - 1, e.k)] else [])
            && s'.answered == s.answered + (if e.AnswerArrives? then {e.k} else {})
            && (s.view.refs.Some? ==> s'.view.refs.Some? && s'.view.refs.value.isStatic == s.view.refs.value.isStatic)
            && (s.view.refs.None? ==> s.sent == [])
  {
    OwnKeeps(t, s, e);
    hide Own, ViewShape;
  }

  lemma StepKeepsCongruent(t: Timing, s: System, e: Event)
    requires Shape(t, s) && AllCongruent(s) && Enabled(t, s, e)
    ensures AllCongruent(Step(t, s, e))
  {
    hide Step, Shape, Enabled, Completes;
    StepRecords(t, s, e);
    if e.AnswerArrives? && Completes(s.view, e.response) {
      AnswerIsCongruent(t, s, e);
    }
    var s' := Step(t, s, e);
    forall i | 0 <= i < |s'.completions|
      ensures Congruent(s', s'.completions[i])
    {
      if i < |s.completions| {
        assert Congruent(s, s.completions[i]);
      }
    }
  }

  lemma {:induction false} RunKeepsCongruent(t: Timing, s: System, es: seq<Event>)
    requires Shape(t, s) && AllCongruent(s) && Legal(t, s, es)
    ensures AllCongruent(After(t, s, es))
    decreases |es|
  {
    if es != [] {
      StepKeepsShape(t, s, es[0]);
      StepKeepsCongruent(t, s, es[0]);
      RunKeepsCongruent(t, Step(t, s, es[0]), es[1..]);
    }
  }

  /**
    With the ref counter, whatever is late, lost, repeated or cancelled, of all answers to commands a command is
    completed only by its own or by one to a command a multiple of 127 refs away.
   */
  lemma CounterAnswersAreCongruent(t: Timing, es: seq<Event>)
    requires Legal(t, START, es)
    ensures AllCongruent(After(t, START, es))
  {
    RunKeepsCongruent(t, START, es);
  }

  // ----- Late answers under the static ref -----

  /**
    An answer to an older command is taken for the one in flight exactly when both are the same command and
    nothing has resolved it yet.
   */
  lemma StaleAnswerTakenIff(t: Timing, es: seq<Event>, k: nat, r: Response)
    requires Legal(t, START, es)
    requires var s := After(t, START, es);
             AnswersCommand(s, k, r) && s.view.refs.Some? && s.view.refs.value.isStatic
    ensures var s := After(t, START, es);
            Completes(s.view, r)
            <==> s.view.pending.Some? && s.view.pending.value.future == Unresolved
                 && s.sent[k].id == s.view.pending.value.id
  {
    RunKeepsShape(t, START, es);
    var s := After(t, START, es);
    assert SentAs(s, s.sent[k]);
    if s.view.pending.Some? {
      assert SentAs(s, s.sent[|s.sent| - 1]);
    }
  }

  /** A session that can never send again. */
  predicate Dead(v: View) {
    v.conn == Closed && (v.stage.Running? || v.stage.Failed?)
  }

  /** No command goes out before this time, except the one in flight. */
  function Horizon(s: System): nat {
    if s.view.activity.InFlight() && s.sent != [] then s.sent[|s.sent| - 1].time else s.view.readyAt
  }

  predicate Current(s: System, k: nat) {
    s.view.activity.InFlight() && k == |s.sent| - 1
  }

  /** An answer to this command can no longer disturb anything. */
  predicate Settled(t: Timing, s: System, k: nat)
    requires k < |s.sent|
  {
    || k in s.answered
    || s.sent[k].time + t.timeout + t.grace <= Horizon(s)
    || Current(s, k)
    || Dead(s.view)
  }

  predicate Matched(s: System) {
    forall i | 0 <= i < |s.completions| :: s.completions[i].command == s.completions[i].answerOf
  }

  predicate Safe(t: Timing, s: System) {
    && Shape(t, s) && Matched(s)
    && (s.view.refs.Some? ==> s.view.refs.value.isStatic)
    && (forall k | 0 <= k < |s.sent| :: Settled(t, s, k))
    && (s.view.pending.Some? && s.view.pending.value.future.Answered? ==> |s.sent| - 1 in s.answered)
  }

  /** The four things matching under the static ref rests on. */
  datatype Assumption = NoCancellation | NoRaisingWrite | AnsweredOnce | AnsweredInTime

  /**
    No task is cancelled and no write raises, a command is answered at most once, the answer comes before
    response_timeout + late_answer_grace have passed since the command started, and nothing else the lock sends
    has the ref and the id of an answer. One of the assumptions may be waived.
   */
  predicate Orderly(t: Timing, s: System, e: Event, waived: Option<Assumption>) {
    match e
    case WriteRaises => waived == Some(NoRaisingWrite)
    case TaskCancelled => waived == Some(NoCancellation)
    case AnswerArrives(k, _) =>
      && k < |s.sent|
      && (k in s.answered ==> waived == Some(AnsweredOnce))
      && (s.now >= s.sent[k].time + t.timeout + t.grace ==> waived == Some(AnsweredInTime))
    case OtherArrives(r) => forall k | 0 <= k < |s.sent| :: !AnswersCommand(s, k, r)
    case Revision(isStatic) => isStatic
    case _ => true
  }

  predicate OrderlyRun(t: Timing, s: System, es: seq<Event>, waived: Option<Assumption>)
    requires Legal(t, s, es)
    decreases |es|
  {
    es == [] || (Orderly(t, s, es[0], waived) && OrderlyRun(t, Step(t, s, es[0]), es[1..], waived))
  }

  /** The times before and after a step: a launch comes after the horizon, and leaving an exchange moves it on. */
  predicate MovesOn(t: Timing, s: System, s': System) {
    && (Dead(s.view) ==> Dead(s'.view))
    && (Dead(s'.view) || Horizon(s') >= Horizon(s))
    && (s.view.activity.InFlight() && !(s'.view.activity.InFlight() && s'.sent == s.sent) ==>
          || Dead(s'.view)
          || (s.view.pending.Some? && s.view.pending.value.future.Answered?)
          || (s.sent != [] && s.sent[|s.sent| - 1].time + t.timeout + t.grace <= Horizon(s')))
  }

  lemma OutsideMovesOn(t: Timing, s: System, e: Event)
    requires Shape(t, s) && Enabled(t, s, e) && !TaskSteps(e)
    ensures MovesOn(t, s, Step(t, s, e))
  {
  }

  lemma StartMovesOn(t: Timing, s: System, e: Event)
    requires Shape(t, s) && Enabled(t, s, e) && (e.SubscribeDone? || e.CommandStarts? || e.PauseEnds?)
    ensures MovesOn(t, s, Step(t, s, e))
  {
    if s.sent != [] {
      assert SentAs(s, s.sent[|s.sent| - 1]);
    }
  }

  lemma ExchangeMovesOn(t: Timing, s: System, e: Event)
    requires Shape(t, s) && Enabled(t, s, e) && (e.WriteEnds? || e.TaskWakes? || e.DeadlinePasses?)
    requires s.view.refs.Some? ==> s.view.refs.value.isStatic
    ensures MovesOn(t, s, Step(t, s, e))
  {
    if s.sent != [] {
      assert SentAs(s, s.sent[|s.sent| - 1]);
    }
  }

  lemma HorizonMovesOn(t: Timing, s: System, e: Event)
    requires Shape(t, s) && Enabled(t, s, e) && Orderly(t, s, e, None)
    requires s.view.refs.Some? ==> s.view.refs.value.isStatic
    ensures MovesOn(t, s, Step(t, s, e))
  {
    hide MovesOn, Step, Shape, Enabled;
    if !TaskSteps(e) {
      OutsideMovesOn(t, s, e);
    } else if e.SubscribeDone? || e.CommandStarts? || e.PauseEnds? {
      StartMovesOn(t, s, e);
    } else {
      ExchangeMovesOn(t, s, e);
    }
  }

  /** In an orderly run an answer that is taken is the answer to the command in flight. */
  lemma AnswerFitsCurrent(t: Timing, s: System, k: nat, r: Response)
    requires Safe(t, s) && AnswersCommand(s, k, r) && Orderly(t, s, AnswerArrives(k, r), None)
    requires Completes(s.view, r)
    ensures k == |s.sent| - 1
  {
    assert Settled(t, s, k);
    assert SentAs(s, s.sent[|s.sent| - 1]);
  }

  /** In an orderly run nothing but an answer completes a command. */
  lemma StrayIsIgnored(t: Timing, s: System, r: Response)
    requires Shape(t, s) && Orderly(t, s, OtherArrives(r), None) && (s.view.refs.Some? ==> s.view.refs.value.isStatic)
    ensures !Completes(s.view, r)
  {
    if s.view.pending.Some? {
      assert !AnswersCommand(s, |s.sent| - 1, r);
    }
  }

  lemma AnsweredFutureComesFrom(t: Timing, s: System, e: Event)
    requires Shape(t, s) && Enabled(t, s, e)
    ensures var s' := Step(t, s, e);
            s'.view.pending.Some? && s'.view.pending.value.future.Answered? ==>
              && |s'.sent| == |s.sent|
              && ((s.view.pending.Some? && s.view.pending.value.future.Answered?)
                  || ((e.AnswerArrives? || e.OtherArrives?) && Completes(s.view, e.response)))
  {
  }

  lemma StepKeepsSafe(t: Timing, s: System, e: Event)
    requires Safe(t, s) && Enabled(t, s, e) && Orderly(t, s, e, None)
    ensures Safe(t, Step(t, s, e))
  {
    StepKeepsShape(t, s, e);
    HorizonMovesOn(t, s, e);
    AnsweredFutureComesFrom(t, s, e);
    StepKeepsStatic(t, s, e);
    StepRecords(t, s, e);
    if e.AnswerArrives? && Completes(s.view, e.response) {
      AnswerFitsCurrent(t, s, e.k, e.response);
    }
    if e.OtherArrives? {
      StrayIsIgnored(t, s, e.response);
    }
    var s' := Step(t, s, e);
    assert PendingShape(s.view);
    hide Step, Shape, Enabled, Completes, Orderly, Horizon, Dead, PendingShape;
    forall k | 0 <= k < |s'.sent|
      ensures Settled(t, s', k)
    {
      if k < |s.sent| {
        assert Settled(t, s, k);
      }
    }
  }

  lemma StepKeepsStatic(t: Timing, s: System, e: Event)
    requires Shape(t, s) && Enabled(t, s, e) && Orderly(t, s, e, None)
    requires s.view.refs.Some? ==> s.view.refs.value.isStatic
    ensures var s' := Step(t, s, e); s'.view.refs.Some? ==> s'.view.refs.value.isStatic
  {
    if s.view.refs.Some? {
      StepRecords(t, s, e);
      hide Step, Shape, Enabled;
    }
  }

  lemma {:induction false} RunKeepsSafe(t: Timing, s: System, es: seq<Event>)
    requires Safe(t, s) && Legal(t, s, es) && OrderlyRun(t, s, es, None)
    ensures Safe(t, After(t, s, es))
    decreases |es|
  {
    if es != [] {
      StepKeepsSafe(t, s, es[0]);
      RunKeepsSafe(t, Step(t, s, es[0]), es[1..]);
    }
  }

  /**
    Under the static ref, in every orderly run, no command is ever completed by another command's answer.
   */
  lemma StaticAnswersMatch(t: Timing, es: seq<Event>)
    requires Legal(t, START, es) && OrderlyRun(t, START, es, None)
    ensures Matched(After(t, START, es))
  {
    RunKeepsSafe(t, START, es);
  }

  // ----- Each assumption is needed -----

  lemma {:induction false} OneMore(t: Timing, s: System, es: seq<Event>, e: Event, waived: Option<Assumption>)
    requires Legal(t, s, es) && Enabled(t, After(t, s, es), e)
    requires OrderlyRun(t, s, es, waived) && Orderly(t, After(t, s, es), e, waived)
    ensures Legal(t, s, es + [e]) && After(t, s, es + [e]) == Step(t, After(t, s, es), e)
    ensures OrderlyRun(t, s, es + [e], waived)
    decreases |es|
  {
    if es == [] {
      assert es + [e] == [e];
    } else {
      hide Enabled, Orderly, Step;
      OneMore(t, Step(t, s, es[0]), es[1..], e, waived);
      assert (es + [e])[1..] == es[1..] + [e];
    }
  }

  const APP_TIMING := Timing(20, 0, 20)
  const KEY_ANSWER := Response(EXCHANGE_KEY_PUB_M, COMMAND_REF_STATIC, SUCCESS, [])
  const SOME_COMMAND := CommandPayload(0x5D, [])
  const SOME_ANSWER := Response(0x5D, COMMAND_REF_STATIC, SUCCESS, [])

  const OLD_REFS := Some(RefsView(true, 1))
  const KEY_SENT := Sent(EXCHANGE_KEY_PUB_M, COMMAND_REF_STATIC, 0, 0)
  const FIRST_SENT := Sent(SOME_COMMAND.id, COMMAND_REF_STATIC, 0, 1)

  function WaitingForKey(future: Future): View {
    View(Connecting, ExchangingKeys, OLD_REFS, false,
         Some(PendingView(EXCHANGE_KEY_PUB_M, COMMAND_REF_STATIC, true, future)), 0,
         Awaiting(CommandPayload(EXCHANGE_KEY_PUB_M, []), 20))
  }

  function Idle(readyAt: nat): View {
    View(Connected, Running, OLD_REFS, true, None, readyAt, Free)
  }

  function Waiting(time: nat, readyAt: nat, future: Future): View {
    View(Connected, Running, OLD_REFS, true,
         Some(PendingView(SOME_COMMAND.id, COMMAND_REF_STATIC, true, future)), readyAt,
         Awaiting(SOME_COMMAND, time + 20))
  }

  /** A run from the start that comes to s and is orderly but for the waived assumption. */
  ghost predicate Reaches(es: seq<Event>, s: System, waived: Option<Assumption>) {
    Legal(APP_TIMING, START, es) && After(APP_TIMING, START, es) == s && OrderlyRun(APP_TIMING, START, es, waived)
  }

  /** One more event, keeping track of the run so far. */
  lemma Then(es0: seq<Event>, s0: System, e: Event, waived: Option<Assumption>) returns (es: seq<Event>, s: System)
    requires Reaches(es0, s0, waived) && Enabled(APP_TIMING, s0, e) && Orderly(APP_TIMING, s0, e, waived)
    ensures Reaches(es, s, waived) && s == Step(APP_TIMING, s0, e)
  {
    OneMore(APP_TIMING, START, es0, e, waived);
    es := es0 + [e];
    s := Step(APP_TIMING, s0, e);
  }

  /** Old firmware: connect() has come as far as waiting for the lock's key. */
  lemma KeyRun(waived: Option<Assumption>) returns (es: seq<Event>, s: System)
    ensures Reaches(es, s, waived) && s == System(WaitingForKey(Unresolved), 0, [KEY_SENT], 1, {}, [])
  {
    es, s := [], START;
    assert Reaches(es, s, waived);
    hide Reaches;
    es, s := Then(es, s, ConnectCalled, waived);
    es, s := Then(es, s, Revision(true), waived);
    assert s == System(View(Connecting, Subscribing, OLD_REFS, false, None, 0, Free), 0, [], 0, {}, []);
    es, s := Then(es, s, SubscribeDone([], Some(1)), waived);
    es, s := Then(es, s, WriteEnds(true, None), waived);
  }

  /** The key exchange is answered and the session is connected, all at time 0. */
  lemma ConnectedRun(waived: Option<Assumption>) returns (es: seq<Event>, s: System)
    ensures Reaches(es, s, waived) && s == System(Idle(0), 0, [KEY_SENT], 1, {0}, [Completion(0, 0)])
  {
    hide Reaches;
    es, s := KeyRun(waived);
    es, s := Then(es, s, AnswerArrives(0, KEY_ANSWER), waived);
    assert s == System(WaitingForKey(Answered(KEY_ANSWER)), 0, [KEY_SENT], 1, {0}, [Completion(0, 0)]);
    es, s := Then(es, s, TaskWakes(true, None), waived);
  }

  /** One more command goes out on an idle session and waits for its answer. */
  lemma CommandRun(es0: seq<Event>, s0: System, waived: Option<Assumption>) returns (es: seq<Event>, s: System)
    requires Reaches(es0, s0, waived)
    requires s0.view == Idle(s0.view.readyAt) && s0.now >= s0.view.readyAt
    ensures Reaches(es, s, waived)
    ensures s == s0.(view := Waiting(s0.now, s0.view.readyAt, Unresolved), draws := s0.draws + 1,
                     sent := s0.sent + [Sent(SOME_COMMAND.id, COMMAND_REF_STATIC, s0.now, s0.draws)])
  {
    hide Reaches;
    es, s := Then(es0, s0, CommandStarts(SOME_COMMAND, Some(1)), waived);
    es, s := Then(es, s, WriteEnds(true, None), waived);
  }

  /** A stale answer to command 1 completes command 2 while command 2 waits. */
  lemma StaleAnswerRun(es0: seq<Event>, s0: System, waived: Option<Assumption>) returns (es: seq<Event>, s: System)
    requires Reaches(es0, s0, waived) && Orderly(APP_TIMING, s0, AnswerArrives(1, SOME_ANSWER), waived)
    requires s0.view == Waiting(s0.now, s0.view.readyAt, Unresolved) && |s0.sent| == 3 && s0.sent[1] == FIRST_SENT
    ensures Reaches(es, s, waived) && s.now == s0.now && !Matched(s)
  {
    hide Reaches;
    es, s := Then(es0, s0, AnswerArrives(1, SOME_ANSWER), waived);
    assert s.completions[|s0.completions|] == Completion(2, 1);
  }

  /** A cancelled task skips the grace period, and the answer it no longer waits for goes to the next command. */
  lemma CancellationBreaksMatching() returns (es: seq<Event>, s: System)
    ensures Reaches(es, s, Some(NoCancellation)) && !Matched(s)
  {
    hide Reaches;
    var waived := Some(NoCancellation);
    es, s := ConnectedRun(waived);
    es, s := CommandRun(es, s, waived);
    es, s := Then(es, s, TaskCancelled, waived);
    assert s.view == Idle(0);
    es, s := CommandRun(es, s, waived);
    es, s := StaleAnswerRun(es, s, waived);
  }

  /** So does a write that raises, when the lock had the command all the same. */
  lemma RaisingWriteBreaksMatching() returns (es: seq<Event>, s: System)
    ensures Reaches(es, s, Some(NoRaisingWrite)) && !Matched(s)
  {
    hide Reaches;
    var waived := Some(NoRaisingWrite);
    es, s := ConnectedRun(waived);
    es, s := Then(es, s, CommandStarts(SOME_COMMAND, Some(1)), waived);
    es, s := Then(es, s, WriteRaises, waived);
    assert s.view == Idle(0);
    es, s := CommandRun(es, s, waived);
    es, s := StaleAnswerRun(es, s, waived);
  }

  /** An answer exactly response_timeout + late_answer_grace after its command already finds the next one waiting. */
  lemma LatenessBreaksMatching() returns (es: seq<Event>, s: System)
    ensures Reaches(es, s, Some(AnsweredInTime)) && !Matched(s)
    ensures s.now == FIRST_SENT.time + APP_TIMING.timeout + APP_TIMING.grace
  {
    hide Reaches;
    var waived := Some(AnsweredInTime);
    es, s := ConnectedRun(waived);
    es, s := CommandRun(es, s, waived);
    es, s := Then(es, s, Tick(20), waived);
    es, s := Then(es, s, DeadlinePasses, waived);
    assert s.view == Idle(40);
    es, s := Then(es, s, Tick(20), waived);
    es, s := CommandRun(es, s, waived);
    es, s := StaleAnswerRun(es, s, waived);
  }

  /** A second copy of an answer completes the next command. */
  lemma RepeatedAnswerBreaksMatching() returns (es: seq<Event>, s: System)
    ensures Reaches(es, s, Some(AnsweredOnce)) && !Matched(s)
  {
    hide Reaches;
    var waived := Some(AnsweredOnce);
    es, s := ConnectedRun(waived);
    es, s := CommandRun(es, s, waived);
    es, s := Then(es, s, AnswerArrives(1, SOME_ANSWER), waived);
    assert s.view == Waiting(0, 0, Answered(SOME_ANSWER));
    es, s := Then(es, s, TaskWakes(true, None), waived);
    assert s.view == Idle(0);
    es, s := CommandRun(es, s, waived);
    es, s := StaleAnswerRun(es, s, waived);
  }

  /**
    The one way out of CLOSED is real: the link drops behind connect()'s last answer, whose task resumes after
    that.
   */
  lemma ClosedComesBack() returns (es: seq<Event>, s: System, e: Event)
    ensures Reaches(es, s, None) && Enabled(APP_TIMING, s, e)
    ensures s.view.conn == Closed && Step(APP_TIMING, s, e).view.conn == Connected
  {
    hide Reaches;
    es, s := KeyRun(None);
    es, s := Then(es, s, AnswerArrives(0, KEY_ANSWER), None);
    assert s.view == WaitingForKey(Answered(KEY_ANSWER));
    es, s := Then(es, s, LinkDrops, None);
    assert s.view == WaitingForKey(Answered(KEY_ANSWER)).(conn := Closed);
    e := TaskWakes(true, None);
  }
}
