/** In what order PIN operations are carried out, and which capability report a coordinator goes by. */
module QueueTheorems {
  import opened Wrappers
  import opened Slots
  import opened SlotTheorems

  /** The commands of one coordinator that went out, in order. */
  function SentBy(sent: seq<Sent>, k: nat): seq<Update> {
    if sent == [] then []
    else
      SentBy(sent[..|sent| - 1], k) + if sent[|sent| - 1].keeper == k then [sent[|sent| - 1].update] else []
  }

  /** What was asked of one coordinator and not refused: at each call, slots from the first user slot up. */
  ghost function Accepted(w: World, es: seq<Event>, k: nat): seq<Update>
    requires Sound(w) && Runs(w, es)
    decreases |es|
  {
    if es == [] then []
    else
      StepIsSound(w, es[0]);
      (if es[0].Ask? && es[0].k == k && es[0].u.key >= FirstUserSlot(w.rest) then [es[0].u] else [])
      + Accepted(Step(w, es[0]), es[1..], k)
  }

  lemma SentByMore(sent: seq<Sent>, s: Sent, k: nat)
    ensures SentBy(sent + [s], k) == SentBy(sent, k) + if s.keeper == k then [s.update] else []
  {
  }

  lemma {:induction false} SameSenders(a: seq<Sent>, b: seq<Sent>, k: nat)
    requires |a| == |b| && forall n | 0 <= n < |a| :: a[n].keeper == b[n].keeper && a[n].update == b[n].update
    ensures SentBy(a, k) == SentBy(b, k)
  {
    if a != [] {
      SameSenders(a[..|a| - 1], b[..|b| - 1], k);
    }
  }

  /** A coordinator's commands: those sent, then those waiting. */
  function Commands(w: World, k: nat): seq<Update>
    requires k < |w.keepers|
  {
    SentBy(w.sent, k) + w.keepers[k].waiting
  }

  lemma SendQueues(w: World, j: nat, k: nat)
    requires Sound(w) && Possible(w, Send(j)) && k < |w.keepers|
    ensures var r := Step(w, Send(j)); k < |r.keepers| && Commands(r, k) == Commands(w, k)
  {
    var r := Step(w, Send(j));
    SendStep(w, j);
    SentByMore(w.sent, r.sent[|w.sent|], k);
    hide SentBy, Sound;
    if j == k {
      var u := w.keepers[k].waiting[0];
      assert w.keepers[k].waiting == [u] + r.keepers[k].waiting;
      assert SentBy(r.sent, k) == SentBy(w.sent, k) + [u];
    } else {
      assert r.keepers[k] == w.keepers[k];
      assert SentBy(r.sent, k) == SentBy(w.sent, k) + [];
    }
  }

  lemma AnswerQueues(w: World, j: nat, delivered: bool, k: nat)
    requires Sound(w) && Possible(w, Answer(j, delivered)) && k < |w.keepers|
    ensures var r := Step(w, Answer(j, delivered)); k < |r.keepers| && Commands(r, k) == Commands(w, k)
  {
    assert SoundKeeper(j, w.keepers[j], w.sent);
    var (n, u) := w.keepers[j].sending.value;
    AnswerStep(w, j, delivered);
    var a := Answered(w, j, delivered);
    SameSenders(w.sent, a.sent, k);
    TakenKeepsKeepers(a, j, u, Some(n), k);
    hide Step, SentBy, Sound, Taken;
  }

  lemma OtherQueues(w: World, e: Event, k: nat)
    requires Sound(w) && Possible(w, e) && k < |w.keepers| && !(e.Withdraw? && e.k == k)
    requires !e.Name? && !e.Send? && !e.Answer? && !e.Ask?
    ensures var r := Step(w, e); k < |r.keepers| && Commands(r, k) == Commands(w, k)
  {
    QuietStep(w, e);
    hide SentBy, Sound, Stored;
  }

  lemma AskQueues(w: World, j: nat, u: Update, k: nat)
    requires Sound(w) && Possible(w, Ask(j, u)) && k < |w.keepers|
    ensures var r := Step(w, Ask(j, u));
            && k < |r.keepers|
            && Commands(r, k) == Commands(w, k) + if j == k && u.key >= FirstUserSlot(w.rest) then [u] else []
  {
    QuietStep(w, Ask(j, u));
    hide SentBy, Sound, Stored, FirstUserSlot;
  }

  /** What one step does to a coordinator's commands. */
  lemma StepQueues(w: World, e: Event, k: nat)
    requires Sound(w) && Possible(w, e) && k < |w.keepers| && !(e.Withdraw? && e.k == k)
    ensures var r := Step(w, e);
            && k < |r.keepers|
            && Commands(r, k)
               == Commands(w, k) + if e.Ask? && e.k == k && e.u.key >= FirstUserSlot(w.rest) then [e.u] else []
  {
    hide Step, Sound, Commands, Taken;
    match e
    case Name(j, slot, name) =>
      NameStep(w, j, slot, name);
      TakenKeepsKeepers(w, j, Rename(slot, name), None, k);
      SameCommands(w, Step(w, e), k);
    case Send(j) => SendQueues(w, j, k);
    case Answer(j, delivered) => AnswerQueues(w, j, delivered, k);
    case Ask(j, u) => AskQueues(w, j, u, k);
    case _ => OtherQueues(w, e, k);
  }

  lemma SameCommands(a: World, b: World, k: nat)
    requires k < |a.keepers| && k < |b.keepers| && a.sent == b.sent && a.keepers[k].waiting == b.keepers[k].waiting
    ensures Commands(a, k) == Commands(b, k)
  {
  }

  /**
    Unless one is withdrawn, a coordinator's PIN operations go out in the order they were asked for, each once: those
    sent and those waiting are all that were accepted.
   */
  lemma {:induction false} OperationsQueue(w: World, es: seq<Event>, k: nat)
    requires Sound(w) && Runs(w, es) && k < |w.keepers|
    requires forall e | e in es :: !(e.Withdraw? && e.k == k)
    ensures var r := Run(w, es);
            && k < |r.keepers|
            && SentBy(r.sent, k) + r.keepers[k].waiting
               == SentBy(w.sent, k) + w.keepers[k].waiting + Accepted(w, es, k)
    decreases |es|
  {
    hide Step, SentBy, Sound, FirstUserSlot, Possible;
    if es == [] {
      assert Commands(w, k) + [] == Commands(w, k);
    } else {
      var e, s := es[0], Step(w, es[0]);
      assert e in es && forall x | x in es[1..] :: x in es;
      StepIsSound(w, e);
      StepQueues(w, e, k);
      OperationsQueue(s, es[1..], k);
      var asked := if e.Ask? && e.k == k && e.u.key >= FirstUserSlot(w.rest) then [e.u] else [];
      Reassociate(Commands(w, k), asked, Accepted(s, es[1..], k));
    }
  }

  /** A withdrawn operation leaves the others in their order. */
  lemma WithdrawnLeaves(w: World, k: nat, i: nat, j: nat)
    requires Sound(w) && Possible(w, Withdraw(k, i)) && j < |w.keepers[k].waiting| - 1
    ensures var (before, after) := (w.keepers[k].waiting, Step(w, Withdraw(k, i)).keepers[k].waiting);
            |after| == |before| - 1 && after[j] == before[if j < i then j else j + 1]
  {
  }

  /** The first answer among the reports of one coordinator. */
  function FirstAnswer(es: seq<Event>, k: nat): Option<map<string, int>> {
    if es == [] then None
    else if es[0].Report? && es[0].k == k && es[0].answer.Some? then es[0].answer
    else FirstAnswer(es[1..], k)
  }

  lemma StepReports(w: World, e: Event, k: nat)
    requires Sound(w) && Possible(w, e) && k < |w.keepers|
    ensures var r := Step(w, e);
            && k < |r.keepers|
            && r.keepers[k].reported
               == (if w.keepers[k].reported.None? && e.Report? && e.k == k then e.answer else w.keepers[k].reported)
            && (e.Report? && e.k == k && w.keepers[k].reported.None? && e.answer.Some? ==>
                  r.rest.capabilities == e.answer)
            && (!(e.Report? && e.answer.Some?) ==> r.rest.capabilities == w.rest.capabilities)
  {
    match e
    case Name(j, slot, name) =>
      NameStep(w, j, slot, name);
      TakenKeepsKeepers(w, j, Rename(slot, name), None, k);
    case Answer(j, delivered) =>
      var (n, u) := w.keepers[j].sending.value;
      AnswerStep(w, j, delivered);
      TakenKeepsKeepers(Answered(w, j, delivered), j, u, Some(n), k);
    case _ =>
  }

  /** A coordinator goes by the first answer it gets, and by what was stored if it was made with that. */
  lemma {:induction false} FirstReportIsFinal(w: World, es: seq<Event>, k: nat)
    requires Sound(w) && Runs(w, es) && k < |w.keepers|
    ensures var r := Run(w, es);
            && k < |r.keepers|
            && r.keepers[k].reported
               == if w.keepers[k].reported.Some? then w.keepers[k].reported else FirstAnswer(es, k)
    decreases |es|
  {
    if es != [] {
      StepIsSound(w, es[0]);
      StepReports(w, es[0], k);
      hide Step, Sound;
      FirstReportIsFinal(Step(w, es[0]), es[1..], k);
    }
  }
}
