/**
  Whether the stored slots agree with the lock about which of them have a code. The lock is a thing of its own here: it
  takes a command whenever the radio brings it, in any order, more than once or never, whatever the program hears.
 */
module PinTheorems {
  import opened Wrappers
  import opened Slots
  import opened SlotTheorems

  /** The program's side, the slots that have a code in the lock, and the commands the lock has taken. */
  datatype Scene = Scene(world: World, coded: set<nat>, taken: set<nat>)

  /** A step of the program, or the lock taking a command that was sent to it at some time. */
  datatype Happening = Host(e: Event) | Takes(n: nat)

  predicate CanHappen(s: Scene, h: Happening) {
    match h
    case Host(e) => Possible(s.world, e)
    case Takes(n) => n < |s.world.sent|
  }

  function Happens(s: Scene, h: Happening): Scene
    requires Sound(s.world) && CanHappen(s, h)
  {
    match h
    case Host(e) => s.(world := Step(s.world, e))
    case Takes(n) =>
      var u := s.world.sent[n].update;
      s.(coded := if u.SetPin? then s.coded + {u.key} else s.coded - {u.key}, taken := s.taken + {n})
  }

  lemma HappensIsSound(s: Scene, h: Happening)
    requires Sound(s.world) && CanHappen(s, h)
    ensures Sound(Happens(s, h).world)
  {
    if h.Host? {
      StepIsSound(s.world, h.e);
    }
  }

  ghost predicate Unfolds(s: Scene, hs: seq<Happening>)
    requires Sound(s.world)
    decreases |hs|
  {
    if hs == [] then true
    else CanHappen(s, hs[0]) && (HappensIsSound(s, hs[0]); Unfolds(Happens(s, hs[0]), hs[1..]))
  }

  ghost function Unfolded(s: Scene, hs: seq<Happening>): (r: Scene)
    requires Sound(s.world) && Unfolds(s, hs)
    ensures Sound(r.world)
    decreases |hs|
  {
    if hs == [] then s else (HappensIsSound(s, hs[0]); Unfolded(Happens(s, hs[0]), hs[1..]))
  }

  /** The stored slot shows a code exactly if the lock has one there. */
  predicate Agrees(s: Scene, key: nat) {
    Read(Stored(s.world), key).hasPin == Some(Flag(key in s.coded))
  }

  /** Coordinator k has a command for this slot in flight. */
  predicate Flying(w: World, k: int, key: nat) {
    0 <= k < |w.keepers| && w.keepers[k].sending.Some? && w.keepers[k].sending.value.1.key == key
  }

  predicate Quiet(w: World, key: nat) {
    forall k | 0 <= k < |w.keepers| :: !Flying(w, k, key)
  }

  // ----- What agreement rests on, each a thing to be looked at in one step -----

  /** No command for the slot goes out while another coordinator's of the opposite effect is in flight for it. */
  predicate NoClash(w: World, e: Event, key: nat)
    requires Possible(w, e)
  {
    e.Send? && w.keepers[e.k].waiting[0].key == key ==>
      forall j | 0 <= j < |w.keepers| && j != e.k && Flying(w, j, key) ::
        w.keepers[j].sending.value.1.SetPin? == w.keepers[e.k].waiting[0].SetPin?
  }

  predicate Outcome(e: Event) {
    e.Answer? || e.Abandon?
  }

  /** The outcome the program goes by: delivered, or anything else. */
  predicate Reported(e: Event) {
    e.Answer? && e.delivered
  }

  /** A command for the slot is reported as delivered exactly if the lock took it; one given up was not taken. */
  predicate Truthful(s: Scene, e: Event, key: nat)
    requires Possible(s.world, e)
  {
    Outcome(e) && Flying(s.world, e.k, key) ==> (Reported(e) <==> s.world.keepers[e.k].sending.value.0 in s.taken)
  }

  /** The lock takes a command for the slot only while the program waits for its outcome. */
  predicate Punctual(s: Scene, n: nat, key: nat)
    requires n < |s.world.sent|
  {
    s.world.sent[n].update.key == key ==>
      exists k | 0 <= k < |s.world.keepers| :: Flying(s.world, k, key) && s.world.keepers[k].sending.value.0 == n
  }

  predicate Faithful(s: Scene, h: Happening, key: nat)
    requires CanHappen(s, h)
  {
    match h
    case Host(e) => NoClash(s.world, e, key) && Truthful(s, e, key)
    case Takes(n) => Punctual(s, n, key)
  }

  ghost predicate FaithfulRun(s: Scene, hs: seq<Happening>, key: nat)
    requires Sound(s.world) && Unfolds(s, hs)
    decreases |hs|
  {
    hs != [] ==>
      Faithful(s, hs[0], key) && (HappensIsSound(s, hs[0]); FaithfulRun(Happens(s, hs[0]), hs[1..], key))
  }

  // ----- Agreement -----

  /** A command for the slot that is in flight and that the lock has taken. */
  predicate Landed(s: Scene, k: int, key: nat) {
    Flying(s.world, k, key) && s.world.keepers[k].sending.value.0 in s.taken
  }

  /**
    Commands in flight for the slot are of one effect. If the lock has taken one of them it is as that one leaves it;
    if it has taken none, it is as the stored slot says.
   */
  ghost predicate InStep(s: Scene, key: nat) {
    && (forall n | n in s.taken :: n < |s.world.sent|)
    && (forall i, j | Flying(s.world, i, key) && Flying(s.world, j, key) ::
          s.world.keepers[i].sending.value.1.SetPin? == s.world.keepers[j].sending.value.1.SetPin?)
    && (forall k | Landed(s, k, key) :: s.world.keepers[k].sending.value.1.SetPin? == (key in s.coded))
    && ((forall k :: !Landed(s, k, key)) ==> Agrees(s, key))
  }

  lemma QuietIsInStep(s: Scene, key: nat)
    requires Quiet(s.world, key) && forall n | n in s.taken :: n < |s.world.sent|
    ensures InStep(s, key) <==> Agrees(s, key)
  {
    forall k ensures !Landed(s, k, key) && !Flying(s.world, k, key) {
    }
  }

  /** Nothing comes of a wrong report or of a late taking when the slot is as the command would have it anyway. */
  predicate Idle(s: Scene, h: Happening, key: nat)
    requires CanHappen(s, h)
  {
    match h
    case Takes(n) =>
      s.world.sent[n].update.key == key && s.world.sent[n].update.SetPin? == (key in s.coded)
    case Host(e) =>
      && Outcome(e) && Flying(s.world, e.k, key)
      && (Read(Stored(s.world), key).hasPin == Some(Flag(s.world.keepers[e.k].sending.value.1.SetPin?))
          || exists j | 0 <= j < |s.world.keepers| :: j != e.k && Landed(s, j, key))
  }

  /** What a step makes of the record and of a coordinator's command in flight for a slot. */
  lemma StepOnPins(w: World, e: Event, k: int, key: nat)
    requires Sound(w) && Possible(w, e)
    ensures var r := Step(w, e);
            && |w.sent| <= |r.sent|
            && (Flying(r, k, key) && !(e.Send? && k == e.k) ==>
                  Flying(w, k, key) && r.keepers[k].sending == w.keepers[k].sending)
            && (Flying(w, k, key) && !(Outcome(e) && k == e.k) ==>
                  Flying(r, k, key) && r.keepers[k].sending == w.keepers[k].sending)
            && (Outcome(e) && k == e.k ==> !Flying(r, k, key))
            && (e.Send? && k == e.k ==>
                  r.keepers[k].sending == Some((|w.sent|, w.keepers[k].waiting[0])) && |r.sent| == |w.sent| + 1)
  {
    match e
    case Name(j, slot, name) =>
      NameStep(w, j, slot, name);
      hide Step, Taken, Sound;
      TakenKeepsKeepers(w, j, Rename(slot, name), None, if 0 <= k < |w.keepers| then k else j);
    case Answer(j, delivered) =>
      AnswerStep(w, j, delivered);
      var (n, u) := w.keepers[j].sending.value;
      hide Step, Taken, Sound;
      TakenKeepsKeepers(Answered(w, j, delivered), j, u, Some(n), if 0 <= k < |w.keepers| then k else j);
    case _ =>
  }

  lemma StepOnStored(w: World, e: Event, key: nat)
    requires Sound(w) && Possible(w, e)
    ensures Read(Stored(Step(w, e)), key).hasPin
            == if Reported(e) && Flying(w, e.k, key) then Some(Flag(w.keepers[e.k].sending.value.1.SetPin?))
               else Read(Stored(w), key).hasPin
  {
    hide Step, Stored, Taken, Answered, Read;
    match e
    case Name(j, slot, name) =>
      NameStep(w, j, slot, name);
      TakenFolds(w, j, Rename(slot, name), None, key);
    case Send(j) => SendStep(w, j);
    case Answer(j, delivered) =>
      assert SoundKeeper(j, w.keepers[j], w.sent);
      var (n, u) := w.keepers[j].sending.value;
      AnswerStep(w, j, delivered);
      AnsweredIsSound(w, j, delivered);
      if delivered {
        TakenFolds(Answered(w, j, delivered), j, u, Some(n), key);
      }
    case _ => QuietStep(w, e);
  }

  /** A command that goes out joins those in flight without being taken yet. */
  lemma SendStaysInStep(s: Scene, k: nat, key: nat)
    requires Sound(s.world) && Possible(s.world, Send(k)) && InStep(s, key)
    ensures InStep(Happens(s, Host(Send(k))), key) <==> NoClash(s.world, Send(k), key)
  {
    var w, r := s.world, Happens(s, Host(Send(k)));
    forall j
      ensures j != k ==> (Flying(r.world, j, key) <==> Flying(w, j, key))
      ensures j != k && Flying(w, j, key) ==> r.world.keepers[j].sending == w.keepers[j].sending
      ensures Landed(r, j, key) <==> Landed(s, j, key)
    {
      StepOnPins(w, Send(k), j, key);
    }
    StepOnPins(w, Send(k), k, key);
    StepOnStored(w, Send(k), key);
    hide Step, Sound, Stored, Read;
  }

  lemma OutcomeOnPins(s: Scene, e: Event, j: int, key: nat)
    requires Sound(s.world) && Possible(s.world, e) && Outcome(e)
    ensures var r := Happens(s, Host(e));
            && |s.world.sent| <= |r.world.sent| && r.taken == s.taken && r.coded == s.coded
            && (Flying(r.world, j, key) <==> Flying(s.world, j, key) && j != e.k)
            && (Flying(r.world, j, key) ==> r.world.keepers[j].sending == s.world.keepers[j].sending)
            && (Landed(r, j, key) <==> Landed(s, j, key) && j != e.k)
  {
    StepOnPins(s.world, e, j, key);
    hide Step, Sound;
  }

  /** An outcome takes the command out of flight; one that is reported as delivered is then what is stored. */
  lemma OutcomeStaysInStep(s: Scene, e: Event, key: nat)
    requires Sound(s.world) && Possible(s.world, e) && InStep(s, key) && Outcome(e)
    ensures InStep(Happens(s, Host(e)), key) <==> Truthful(s, e, key) || Idle(s, Host(e), key)
  {
    var w, r := s.world, Happens(s, Host(e));
    StepOnStored(w, e, key);
    OutcomeOnPins(s, e, e.k, key);
    hide Step, Sound, Stored, Read;
    forall j
      ensures Flying(r.world, j, key) <==> Flying(w, j, key) && j != e.k
      ensures Flying(r.world, j, key) ==> r.world.keepers[j].sending == w.keepers[j].sending
      ensures Landed(r, j, key) <==> Landed(s, j, key) && j != e.k
    {
      OutcomeOnPins(s, e, j, key);
    }
    if Flying(w, e.k, key) {
      assert Landed(s, e.k, key) <==> w.keepers[e.k].sending.value.0 in s.taken;
    }
  }

  lemma OtherStaysInStep(s: Scene, e: Event, key: nat)
    requires Sound(s.world) && Possible(s.world, e) && InStep(s, key) && !Outcome(e) && !e.Send?
    ensures InStep(Happens(s, Host(e)), key)
  {
    var w, r := s.world, Happens(s, Host(e));
    forall j
      ensures Flying(r.world, j, key) <==> Flying(w, j, key)
      ensures Flying(r.world, j, key) ==> r.world.keepers[j].sending == w.keepers[j].sending
      ensures Landed(r, j, key) <==> Landed(s, j, key)
    {
      StepOnPins(w, e, j, key);
    }
    StepOnPins(w, e, 0, key);
    StepOnStored(w, e, key);
    hide Step, Sound, Stored, Read;
  }

  /** A coordinator knows the command it has in flight as it was sent. */
  lemma InFlightAsSent(w: World, k: int, key: nat)
    requires Sound(w) && Flying(w, k, key)
    ensures var (n, u) := w.keepers[k].sending.value;
            n < |w.sent| && w.sent[n] == Sent(k, u, None) && !u.Rename?
  {
    assert SoundKeeper(k, w.keepers[k], w.sent);
  }

  /** A taken command in flight leaves the lock as all in flight for the slot do; others leave the slot alone. */
  lemma TakesStaysInStep(s: Scene, n: nat, key: nat)
    requires Sound(s.world) && n < |s.world.sent| && InStep(s, key)
    ensures InStep(Happens(s, Takes(n)), key) <==> Punctual(s, n, key) || Idle(s, Takes(n), key)
  {
    var w, r := s.world, Happens(s, Takes(n));
    var u := w.sent[n].update;
    hide Stored, Read;
    forall k | Flying(w, k, key)
      ensures w.sent[w.keepers[k].sending.value.0].update == w.keepers[k].sending.value.1
    {
      InFlightAsSent(w, k, key);
    }
    hide Sound;
    if u.key == key && Punctual(s, n, key) {
      var k :| 0 <= k < |w.keepers| && Flying(w, k, key) && w.keepers[k].sending.value.0 == n;
      assert w.keepers[k].sending.value.1 == u && Landed(r, k, key);
    } else {
      forall k ensures Landed(r, k, key) <==> Landed(s, k, key) {
      }
      assert u.key != key ==> (key in r.coded <==> key in s.coded);
    }
  }

  /** What ends it in one step is exactly a step that breaks one of the assumptions, unless nothing comes of that. */
  lemma StaysInStepIff(s: Scene, h: Happening, key: nat)
    requires Sound(s.world) && CanHappen(s, h) && InStep(s, key)
    ensures InStep(Happens(s, h), key) <==> Faithful(s, h, key) || Idle(s, h, key)
  {
    hide InStep, Happens, Sound;
    match h
    case Takes(n) => TakesStaysInStep(s, n, key);
    case Host(e) =>
      if e.Send? {
        SendStaysInStep(s, e.k, key);
      } else if Outcome(e) {
        OutcomeStaysInStep(s, e, key);
      } else {
        OtherStaysInStep(s, e, key);
      }
  }

  /**
    With any number of coordinators, whatever order and times the lock takes commands in: as long as no two clash,
    outcomes are reported as they are and the lock takes nothing after its outcome, the stored slot and the lock agree
    whenever no command for the slot is in flight.
   */
  lemma {:induction false} StoredPinsFollowTheLock(s: Scene, hs: seq<Happening>, key: nat)
    requires Sound(s.world) && Unfolds(s, hs) && FaithfulRun(s, hs, key) && InStep(s, key)
    ensures InStep(Unfolded(s, hs), key)
    ensures Quiet(Unfolded(s, hs).world, key) ==> Agrees(Unfolded(s, hs), key)
    decreases |hs|
  {
    if hs == [] {
      if Quiet(s.world, key) {
        QuietIsInStep(s, key);
      }
    } else {
      HappensIsSound(s, hs[0]);
      StaysInStepIff(s, hs[0], key);
      hide Happens, InStep, Faithful, Sound;
      StoredPinsFollowTheLock(Happens(s, hs[0]), hs[1..], key);
    }
  }

  // ----- Where agreement ends -----

  /**
    The outcome of the slot's only command in flight breaks agreement exactly when it is reported otherwise than it was
    and the command would have changed what is stored.
   */
  lemma OutcomeAgreesIff(s: Scene, e: Event, key: nat)
    requires Sound(s.world) && Possible(s.world, e) && InStep(s, key) && Outcome(e)
    requires Flying(s.world, e.k, key) && forall j | Flying(s.world, j, key) :: j == e.k
    ensures var (n, u) := s.world.keepers[e.k].sending.value;
            Agrees(Happens(s, Host(e)), key)
            <==> Reported(e) == (n in s.taken) || Read(Stored(s.world), key).hasPin == Some(Flag(u.SetPin?))
  {
    StepOnStored(s.world, e, key);
    hide Step, Sound, Stored, Read;
    assert Landed(s, e.k, key) <==> s.world.keepers[e.k].sending.value.0 in s.taken;
  }

  // ----- Runs in which one assumption fails -----

  lemma {:induction false} OneMore(s: Scene, hs: seq<Happening>, h: Happening, key: nat)
    requires Sound(s.world) && Unfolds(s, hs) && FaithfulRun(s, hs, key)
    requires CanHappen(Unfolded(s, hs), h) && Faithful(Unfolded(s, hs), h, key)
    ensures Unfolds(s, hs + [h]) && FaithfulRun(s, hs + [h], key)
    ensures Unfolded(s, hs + [h]) == Happens(Unfolded(s, hs), h)
    decreases |hs|
  {
    if hs == [] {
      assert hs + [h] == [h] && [h][1..] == [];
      HappensIsSound(s, h);
      hide Happens, Sound, CanHappen, Faithful;
      var r := Happens(s, h);
      assert Unfolds(r, []) && Unfolded(r, []) == r && FaithfulRun(r, [], key);
    } else {
      HappensIsSound(s, hs[0]);
      hide Happens, Sound, CanHappen, Faithful;
      OneMore(Happens(s, hs[0]), hs[1..], h, key);
      assert (hs + [h])[0] == hs[0] && (hs + [h])[1..] == hs[1..] + [h];
    }
  }

  /** Nothing stored, no coordinator, and no code in the lock. */
  const NOTHING := Scene(World(None, Rest(None, None), [], None, [], []), {}, {})

  /** A run from nothing that keeps every assumption. */
  ghost predicate Reaches(hs: seq<Happening>, s: Scene, key: nat) {
    Sound(NOTHING.world) && Unfolds(NOTHING, hs) && FaithfulRun(NOTHING, hs, key) && Unfolded(NOTHING, hs) == s
  }

  lemma Then(hs0: seq<Happening>, s0: Scene, h: Happening, key: nat) returns (hs: seq<Happening>, s: Scene)
    requires Reaches(hs0, s0, key) && CanHappen(s0, h) && Faithful(s0, h, key)
    ensures Reaches(hs, s, key) && Sound(s0.world) && s == Happens(s0, h) && Sound(s.world)
  {
    OneMore(NOTHING, hs0, h, key);
    hs := hs0 + [h];
    s := Happens(s0, h);
  }

  /** A code for slot 5 is on its way to the lock, which has taken it or not. */
  lemma CodeOnItsWay(taken: bool) returns (hs: seq<Happening>, s: Scene)
    ensures Reaches(hs, s, 5) && Sound(s.world)
    ensures |s.world.keepers| == 1 && s.world.keepers[0].sending == Some((0, SetPin(5, "guest")))
    ensures |s.world.sent| == 1 && s.world.sent[0].update == SetPin(5, "guest")
    ensures s.world.keepers[0].waiting == [] && s.world.stored == None && s.world.rest == Rest(None, None)
    ensures s.taken == (if taken then {0} else {}) && s.coded == (if taken then {5} else {})
  {
    hs, s := [], NOTHING;
    assert Reaches(hs, s, 5);
    hide Reaches, Sound;
    hs, s := Then(hs, s, Host(Setup), 5);
    hs, s := Then(hs, s, Host(Ask(0, SetPin(5, "guest"))), 5);
    hs, s := Then(hs, s, Host(Send(0)), 5);
    if taken {
      assert Flying(s.world, 0, 5) && s.world.keepers[0].sending.value.0 == 0;
      hs, s := Then(hs, s, Takes(0), 5);
    }
  }

  /** No command for the slot is in flight, and the stored slot does not say what the lock has. */
  predicate Disagrees(s: Scene, key: nat) {
    Quiet(s.world, key) && !Agrees(s, key)
  }

  /** The program's task is cancelled after the lock took its command. */
  lemma TakenThoughGivenUp() returns (hs: seq<Happening>, s: Scene)
    ensures Reaches(hs, s, 5) && Sound(s.world) && CanHappen(s, Host(Abandon(0)))
    ensures Disagrees(Happens(s, Host(Abandon(0))), 5)
  {
    hs, s := CodeOnItsWay(true);
  }

  /** The lock took the command and its answer was lost. */
  lemma TakenThoughUnheard() returns (hs: seq<Happening>, s: Scene)
    ensures Reaches(hs, s, 5) && Sound(s.world) && CanHappen(s, Host(Answer(0, false)))
    ensures Disagrees(Happens(s, Host(Answer(0, false))), 5)
  {
    hs, s := CodeOnItsWay(true);
  }

  /** An answer nobody could read counts as delivery, and the lock has refused the command. */
  lemma DeliveredThoughNotTaken() returns (hs: seq<Happening>, s: Scene)
    ensures Reaches(hs, s, 5) && Sound(s.world) && CanHappen(s, Host(Answer(0, true)))
    ensures Disagrees(Happens(s, Host(Answer(0, true))), 5)
  {
    hs, s := CodeOnItsWay(false);
  }

  /** The command is rightly reported as not delivered, and the lock takes it after that. */
  lemma TakenTooLate() returns (hs: seq<Happening>, s: Scene)
    ensures Reaches(hs, s, 5) && Sound(s.world) && CanHappen(s, Takes(0)) && Agrees(s, 5)
    ensures Disagrees(Happens(s, Takes(0)), 5)
  {
    hs, s := CodeOnItsWay(false);
    hide Reaches, Sound;
    hs, s := Then(hs, s, Host(Answer(0, false)), 5);
  }

  /** A coordinator's code is on its way when a reload makes the next one, which clears the same slot: they clash. */
  lemma ClashIsReached() returns (hs: seq<Happening>, s: Scene)
    ensures Reaches(hs, s, 5) && Sound(s.world) && CanHappen(s, Host(Send(1)))
    ensures Clash(Happens(s, Host(Send(1))), 0, 1)
  {
    hs, s := CodeOnItsWay(false);
    hide Reaches, Sound;
    hs, s := Then(hs, s, Host(Unload), 5);
    hs, s := Then(hs, s, Host(Setup), 5);
    hs, s := Then(hs, s, Host(Ask(1, ClearPin(5))), 5);
  }

  /** Two coordinators have commands of opposite effect in flight for one slot. */
  predicate Clash(s: Scene, i: nat, j: nat) {
    && i < |s.world.keepers| && j < |s.world.keepers|
    && s.world.keepers[i].sending.Some? && s.world.keepers[j].sending.Some?
    && s.world.keepers[i].sending.value.1.key == s.world.keepers[j].sending.value.1.key
    && s.world.keepers[i].sending.value.1.SetPin? != s.world.keepers[j].sending.value.1.SetPin?
  }

  /** The lock takes the command of i and then that of j; their answers come in this order or the other one. */
  function BothTaken(s: Scene, i: nat, j: nat, crossed: bool): seq<Happening>
    requires Clash(s, i, j)
  {
    var (n, m) := (s.world.keepers[i].sending.value.0, s.world.keepers[j].sending.value.0);
    [Takes(n), Takes(m)] + if crossed then [Host(Answer(j, true)), Host(Answer(i, true))]
                           else [Host(Answer(i, true)), Host(Answer(j, true))]
  }

  lemma UnfoldsTwo(s: Scene, a: Happening, b: Happening, rest: seq<Happening>, key: nat)
    requires Sound(s.world) && CanHappen(s, a) && Faithful(s, a, key)
    requires Sound(Happens(s, a).world) && CanHappen(Happens(s, a), b) && Faithful(Happens(s, a), b, key)
    requires var r := Happens(Happens(s, a), b);
             Sound(r.world) && Unfolds(r, rest) && FaithfulRun(r, rest, key)
    ensures var hs := [a, b] + rest;
            && Unfolds(s, hs) && FaithfulRun(s, hs, key)
            && Unfolded(s, hs) == Unfolded(Happens(Happens(s, a), b), rest)
  {
    var r := Happens(s, a);
    hide Happens, Sound, CanHappen, Faithful;
    assert ([a, b] + rest)[1..] == [b] + rest && ([b] + rest)[1..] == rest && ([b] + rest)[0] == b;
    assert Unfolds(r, [b] + rest) && FaithfulRun(r, [b] + rest, key);
  }

  /** Delivered answers for one slot, one after the other: it is stored as the later one's command left it. */
  lemma AnswersInTurn(s: Scene, i: nat, j: nat)
    requires Sound(s.world) && Clash(s, i, j)
    requires s.world.keepers[i].sending.value.0 in s.taken && s.world.keepers[j].sending.value.0 in s.taken
    ensures var hs := [Host(Answer(i, true)), Host(Answer(j, true))];
            var u := s.world.keepers[j].sending.value.1;
            && Unfolds(s, hs) && FaithfulRun(s, hs, u.key) && Unfolded(s, hs).coded == s.coded
            && Read(Stored(Unfolded(s, hs).world), u.key).hasPin == Some(Flag(u.SetPin?))
  {
    var key := s.world.keepers[j].sending.value.1.key;
    var (a, b) := (Host(Answer(i, true)), Host(Answer(j, true)));
    var r := Happens(s, a);
    HappensIsSound(s, a);
    StepOnPins(s.world, a.e, j, key);
    StepOnStored(r.world, b.e, key);
    HappensIsSound(r, b);
    assert Flying(r.world, j, key);
    hide Step, Sound, Stored, Read;
    UnfoldsTwo(s, a, b, [], key);
    assert [a, b] + [] == [a, b];
  }

  /**
    From any clash: the lock takes both commands, in this order, and both are rightly reported as delivered. The stored
    slot and the lock then agree if and only if the answers come in the order in which the lock took the commands.
   */
  lemma ClashingAnswersDisagree(s: Scene, i: nat, j: nat, crossed: bool)
    requires Sound(s.world) && Clash(s, i, j)
    ensures var (hs, key) := (BothTaken(s, i, j, crossed), s.world.keepers[i].sending.value.1.key);
            && Unfolds(s, hs) && FaithfulRun(s, hs, key)
            && (Agrees(Unfolded(s, hs), key) <==> !crossed)
  {
    var key := s.world.keepers[i].sending.value.1.key;
    var (n, m) := (s.world.keepers[i].sending.value.0, s.world.keepers[j].sending.value.0);
    InFlightAsSent(s.world, i, key);
    InFlightAsSent(s.world, j, key);
    var r := Happens(Happens(s, Takes(n)), Takes(m));
    assert Flying(s.world, i, key) && Flying(s.world, j, key);
    if crossed {
      AnswersInTurn(r, j, i);
    } else {
      AnswersInTurn(r, i, j);
    }
    hide Sound, Stored, Read;
    UnfoldsTwo(s, Takes(n), Takes(m), BothTaken(s, i, j, crossed)[2..], key);
    assert BothTaken(s, i, j, crossed) == [Takes(n), Takes(m)] + BothTaken(s, i, j, crossed)[2..];
  }
}
