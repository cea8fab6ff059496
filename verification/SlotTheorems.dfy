/** What holds over every run of any number of coordinators on one config entry. */
module SlotTheorems {
  import opened Wrappers
  import opened Slots

  /** Every event of the list can happen where it stands. */
  ghost predicate Runs(w: World, es: seq<Event>)
    requires Sound(w)
    decreases |es|
  {
    if es == [] then true
    else Possible(w, es[0]) && (StepIsSound(w, es[0]); Runs(Step(w, es[0]), es[1..]))
  }

  ghost function Run(w: World, es: seq<Event>): (r: World)
    requires Sound(w) && Runs(w, es)
    ensures Sound(r)
    decreases |es|
  {
    if es == [] then w else (StepIsSound(w, es[0]); Run(Step(w, es[0]), es[1..]))
  }

  lemma NameStep(w: World, k: nat, slot: nat, name: string)
    requires Sound(w) && k < |w.keepers|
    ensures Step(w, Name(k, slot, name)) == Taken(w, k, Rename(slot, name), None)
  {
  }

  lemma SendStep(w: World, k: nat)
    requires Sound(w) && Possible(w, Send(k))
    ensures Step(w, Send(k)).sent == w.sent + [Sent(k, w.keepers[k].waiting[0], None)]
    ensures Stored(Step(w, Send(k))) == Stored(w) && Step(w, Send(k)).saves == w.saves
  {
  }

  lemma AnswerStep(w: World, k: nat, delivered: bool)
    requires Sound(w) && Possible(w, Answer(k, delivered))
    ensures var (n, u) := w.keepers[k].sending.value;
            Step(w, Answer(k, delivered))
            == if delivered then Taken(Answered(w, k, delivered), k, u, Some(n)) else Answered(w, k, delivered)
    ensures Stored(Answered(w, k, delivered)) == Stored(w) && Answered(w, k, delivered).saves == w.saves
    ensures |Answered(w, k, delivered).keepers| == |w.keepers|
  {
  }

  lemma QuietStep(w: World, e: Event)
    requires Sound(w) && Possible(w, e) && !e.Name? && !e.Send? && !e.Answer?
    ensures var r := Step(w, e);
            r.stored == w.stored && Stored(r) == Stored(w) && r.sent == w.sent && r.saves == w.saves
  {
  }

  lemma TakenKeepsKeepers(w: World, k: nat, u: Update, command: Option<nat>, j: nat)
    requires k < |w.keepers| && j < |w.keepers|
    ensures var r := Taken(w, k, u, command);
            && |r.keepers| == |w.keepers| && r.sent == w.sent && r.runtime == w.runtime && r.rest == w.rest
            && r.keepers[j] == w.keepers[j].(shown := r.keepers[j].shown)
  {
  }

  lemma TakenShows(w: World, k: nat, u: Update, command: Option<nat>)
    requires k < |w.keepers|
    requires w.runtime.Some? ==> w.runtime.value < |w.keepers| && w.keepers[w.runtime.value].shown == Stored(w)
    ensures var r := Taken(w, k, u, command);
            && Stored(r) == After(Stored(w), u)
            && (r.runtime.Some? ==> r.keepers[r.runtime.value].shown == Stored(r))
  {
    NormalizedIsNormal(if w.stored.Some? then w.stored.value else map[]);
    UpdateIsPerSlot(Stored(w), u, u.key);
    NormalizedIsNormal(After(Stored(w), u));
  }

  lemma TakenIsSound(w: World, k: nat, u: Update, command: Option<nat>)
    requires Sound(w) && k < |w.keepers|
    ensures Sound(Taken(w, k, u, command))
  {
    TakenShows(w, k, u, command);
    forall j | 0 <= j < |w.keepers|
      ensures SoundKeeper(j, Taken(w, k, u, command).keepers[j], w.sent)
    {
      TakenKeepsKeepers(w, k, u, command, j);
      assert SoundKeeper(j, w.keepers[j], w.sent);
    }
    TakenKeepsKeepers(w, k, u, command, k);
  }

  lemma AnsweredIsSound(w: World, k: nat, delivered: bool)
    requires Sound(w) && Possible(w, Answer(k, delivered))
    ensures Sound(Answered(w, k, delivered))
  {
    assert SoundKeeper(k, w.keepers[k], w.sent);
    var n := w.keepers[k].sending.value.0;
    var r := Answered(w, k, delivered);
    assert r.sent[n].keeper == k && forall m | 0 <= m < |w.sent| :: r.sent[m].keeper == w.sent[m].keeper;
    forall j | 0 <= j < |w.keepers|
      ensures SoundKeeper(j, r.keepers[j], r.sent)
    {
      assert SoundKeeper(j, w.keepers[j], w.sent);
      if r.keepers[j].sending.Some? {
        assert j != k && r.sent[r.keepers[j].sending.value.0].keeper == j;
      }
    }
  }

  lemma SendIsSound(w: World, k: nat)
    requires Sound(w) && Possible(w, Send(k))
    ensures Sound(Step(w, Send(k)))
  {
  }

  lemma OtherIsSound(w: World, e: Event)
    requires Sound(w) && Possible(w, e) && !e.Name? && !e.Send? && !e.Answer?
    ensures Sound(Step(w, e))
  {
    forall j | 0 <= j < |w.keepers|
      ensures SoundKeeper(j, Step(w, e).keepers[j], w.sent)
    {
      assert SoundKeeper(j, w.keepers[j], w.sent);
    }
  }

  lemma StepIsSound(w: World, e: Event)
    requires Sound(w) && Possible(w, e)
    ensures Sound(Step(w, e))
  {
    hide Sound, Taken, Answered;
    match e
    case Name(k, slot, name) => TakenIsSound(w, k, Rename(slot, name), None);
    case Send(k) => SendIsSound(w, k);
    case Answer(k, delivered) =>
      AnswerStep(w, k, delivered);
      AnsweredIsSound(w, k, delivered);
      var (n, u) := w.keepers[k].sending.value;
      TakenIsSound(Answered(w, k, delivered), k, u, Some(n));
    case _ => OtherIsSound(w, e);
  }

  /** One slot after a list of updates, in order. */
  function Folded(key: nat, slot: Fields, saves: seq<Save>): Fields
    decreases |saves|
  {
    if saves == [] then slot else OnSlot(key, Folded(key, slot, saves[..|saves| - 1]), saves[|saves| - 1].update)
  }

  lemma {:induction false} FoldedOver(key: nat, slot: Fields, first: seq<Save>, then_: seq<Save>)
    ensures Folded(key, slot, first + then_) == Folded(key, Folded(key, slot, first), then_)
    decreases |then_|
  {
    if then_ == [] {
      assert first + then_ == first;
    } else {
      assert (first + then_)[..|first + then_| - 1] == first + then_[..|then_| - 1];
      FoldedOver(key, slot, first, then_[..|then_| - 1]);
    }
  }

  lemma TakenFolds(w: World, k: nat, u: Update, command: Option<nat>, key: nat)
    requires Sound(w) && k < |w.keepers|
    ensures var r := Taken(w, k, u, command);
            && w.saves <= r.saves && |r.saves| <= |w.saves| + 1
            && Read(Stored(r), key) == Folded(key, Read(Stored(w), key), r.saves[|w.saves|..])
            && Read(Stored(r), key) == OnSlot(key, Read(Stored(w), key), u)
  {
    NormalizedIsNormal(if w.stored.Some? then w.stored.value else map[]);
    UpdateIsPerSlot(Stored(w), u, key);
    TakenShows(w, k, u, command);
  }

  /** What a step adds to the saves is what it does to every slot read from the stored ones. */
  lemma StepFolds(w: World, e: Event, key: nat)
    requires Sound(w) && Possible(w, e)
    ensures var r := Step(w, e);
            && w.saves <= r.saves && |r.saves| <= |w.saves| + 1
            && Read(Stored(r), key) == Folded(key, Read(Stored(w), key), r.saves[|w.saves|..])
  {
    hide Step, Stored, Taken, Answered, Read, After, OnSlot;
    match e
    case Name(k, slot, name) =>
      NameStep(w, k, slot, name);
      TakenFolds(w, k, Rename(slot, name), None, key);
    case Send(k) => SendStep(w, k);
    case Answer(k, delivered) =>
      var (n, u) := w.keepers[k].sending.value;
      AnswerStep(w, k, delivered);
      AnsweredIsSound(w, k, delivered);
      if delivered {
        TakenFolds(Answered(w, k, delivered), k, u, Some(n), key);
      }
    case _ => QuietStep(w, e);
  }

  /**
    No slot update is lost: after any run, with any number of coordinators saving in any order, every stored
    slot is what the saves made of it one after another, and the entry's own coordinator reads the same.
   */
  lemma {:induction false} NoLostUpdate(w: World, es: seq<Event>, key: nat)
    requires Sound(w) && Runs(w, es)
    ensures var r := Run(w, es);
            && w.saves <= r.saves
            && Read(Stored(r), key) == Folded(key, Read(Stored(w), key), r.saves[|w.saves|..])
            && (r.runtime.Some? ==> Read(r.keepers[r.runtime.value].shown, key) == Read(Stored(r), key))
    decreases |es|
  {
    if es != [] {
      var s := Step(w, es[0]);
      StepIsSound(w, es[0]);
      StepFolds(w, es[0], key);
      NoLostUpdate(s, es[1..], key);
      var r := Run(s, es[1..]);
      assert r.saves[|w.saves|..] == s.saves[|w.saves|..] + r.saves[|s.saves|..];
      FoldedOver(key, Read(Stored(w), key), s.saves[|w.saves|..], r.saves[|s.saves|..]);
    }
  }

  function LastReserved(reserved: Option<int>, es: seq<Event>): Option<int>
    decreases |es|
  {
    if es == [] then reserved
    else LastReserved(if es[0].Reserve? then Some(es[0].count) else reserved, es[1..])
  }

  /** Slot writes and capability reports keep the reserved slots; whatever writes them keeps the slots. */
  lemma {:induction false} OptionsAreKept(w: World, es: seq<Event>)
    requires Sound(w) && Runs(w, es)
    ensures var r := Run(w, es);
            && r.rest.reserved == LastReserved(w.rest.reserved, es)
            && ((forall e | e in es :: !e.Report?) ==> r.rest.capabilities == w.rest.capabilities)
            && ((forall e | e in es :: !e.Name? && !e.Answer?) ==> r.stored == w.stored)
    decreases |es|
  {
    if es != [] {
      StepIsSound(w, es[0]);
      OptionsAreKept(Step(w, es[0]), es[1..]);
      assert es[0] in es && forall e | e in es[1..] :: e in es;
    }
  }

  /** The commands of one coordinator reported as delivered, in the order they were sent. */
  function Delivered(sent: seq<Sent>, k: nat): seq<nat>
    decreases |sent|
  {
    if sent == [] then []
    else
      var last := sent[|sent| - 1];
      Delivered(sent[..|sent| - 1], k) + if last.keeper == k && last.delivered == Some(true) then [|sent| - 1] else []
  }

  /** The commands of one coordinator whose saves were made, in the order they were made. */
  function Saved(saves: seq<Save>, k: nat): seq<nat>
    decreases |saves|
  {
    if saves == [] then []
    else
      var last := saves[|saves| - 1];
      Saved(saves[..|saves| - 1], k) + if last.keeper == k && last.command.Some? then [last.command.value] else []
  }

  /** An outcome recorded with no later command of that coordinator on record. */
  lemma {:induction false} RecordOutcome(sent: seq<Sent>, n: nat, delivered: bool, k: nat)
    requires n < |sent| && sent[n].delivered.None?
    requires forall m | n < m < |sent| :: sent[m].keeper != sent[n].keeper
    ensures var r := sent[n := sent[n].(delivered := Some(delivered))];
            Delivered(r, k) == Delivered(sent, k) + if delivered && sent[n].keeper == k then [n] else []
    decreases |sent|
  {
    var r := sent[n := sent[n].(delivered := Some(delivered))];
    var m := |sent| - 1;
    if n == m {
      assert r[..m] == sent[..m];
    } else {
      assert r[..m] == sent[..m][n := sent[n].(delivered := Some(delivered))];
      RecordOutcome(sent[..m], n, delivered, k);
    }
  }

  ghost predicate InOrder(w: World) {
    && (forall k: nat :: Saved(w.saves, k) == Delivered(w.sent, k))
    && forall s | s in w.saves && s.command.Some? ::
         s.command.value < |w.sent| && w.sent[s.command.value] == Sent(s.keeper, s.update, Some(true))
  }

  lemma TakenKeepsOrder(w: World, k: nat, u: Update, command: Option<nat>)
    requires k < |w.keepers|
    requires command.Some? ==> Updated(Stored(w), u).Some?
    ensures var r := Taken(w, k, u, command);
            && r.sent == w.sent
            && (r.saves == w.saves + [Save(k, u, command)] || (r.saves == w.saves && command.None?))
            && forall j: nat ::
                 Saved(r.saves, j) == Saved(w.saves, j) + if j == k && command.Some? then [command.value] else []
  {
  }

  lemma UndecidedIsNotDelivered(sent: seq<Sent>, s: Sent)
    requires s.delivered.None?
    ensures forall j: nat :: Delivered(sent + [s], j) == Delivered(sent, j)
  {
  }

  lemma AnswerKeepsOrder(w: World, k: nat, delivered: bool)
    requires Sound(w) && Possible(w, Answer(k, delivered)) && InOrder(w)
    ensures InOrder(Step(w, Answer(k, delivered)))
  {
    assert SoundKeeper(k, w.keepers[k], w.sent);
    var (n, u) := w.keepers[k].sending.value;
    var a := Answered(w, k, delivered);
    assert a.sent == w.sent[n := w.sent[n].(delivered := Some(delivered))];
    AnswerStep(w, k, delivered);
    hide Step, Stored, Taken, Answered, Saved, Delivered, Sound;
    forall j: nat
      ensures Delivered(a.sent, j) == Delivered(w.sent, j) + if delivered && j == k then [n] else []
    {
      RecordOutcome(w.sent, n, delivered, j);
    }
    if delivered {
      TakenKeepsOrder(a, k, u, Some(n));
    }
  }

  lemma StepKeepsOrder(w: World, e: Event)
    requires Sound(w) && Possible(w, e) && InOrder(w)
    ensures InOrder(Step(w, e))
  {
    hide Step, Stored, Taken, Answered, Saved, Delivered;
    match e
    case Name(k, slot, name) =>
      NameStep(w, k, slot, name);
      TakenKeepsOrder(w, k, Rename(slot, name), None);
    case Send(k) =>
      SendStep(w, k);
      UndecidedIsNotDelivered(w.sent, Sent(k, w.keepers[k].waiting[0], None));
    case Answer(k, delivered) => AnswerKeepsOrder(w, k, delivered);
    case _ => QuietStep(w, e);
  }

  /**
    PIN operations: each coordinator's saves follow the order in which its commands were sent, one for each
    command reported as delivered and none for one refused, unanswered or abandoned, whatever the lock did with it.
   */
  lemma {:induction false} SavesFollowSends(w: World, es: seq<Event>)
    requires Sound(w) && Runs(w, es) && InOrder(w)
    ensures InOrder(Run(w, es))
    decreases |es|
  {
    if es != [] {
      StepIsSound(w, es[0]);
      StepKeepsOrder(w, es[0]);
      SavesFollowSends(Step(w, es[0]), es[1..]);
    }
  }

  /** Slot 0, the master code, never has its code set or cleared. */
  lemma {:induction false} MasterCodeIsKept(w: World, es: seq<Event>)
    requires Sound(w) && Runs(w, es)
    ensures Read(Stored(Run(w, es)), 0).hasPin == Read(Stored(w), 0).hasPin
    decreases |es|
  {
    if es != [] {
      var s := Step(w, es[0]);
      StepIsSound(w, es[0]);
      StepKeepsMasterCode(w, es[0]);
      MasterCodeIsKept(s, es[1..]);
    }
  }

  lemma StepKeepsMasterCode(w: World, e: Event)
    requires Sound(w) && Possible(w, e)
    ensures Read(Stored(Step(w, e)), 0).hasPin == Read(Stored(w), 0).hasPin
  {
    hide Step, Stored, Taken, Answered, Read;
    match e
    case Name(k, slot, name) =>
      NameStep(w, k, slot, name);
      TakenFolds(w, k, Rename(slot, name), None, 0);
    case Send(k) => SendStep(w, k);
    case Answer(k, delivered) =>
      assert SoundKeeper(k, w.keepers[k], w.sent);
      var (n, u) := w.keepers[k].sending.value;
      AnswerStep(w, k, delivered);
      AnsweredIsSound(w, k, delivered);
      if delivered {
        TakenFolds(Answered(w, k, delivered), k, u, Some(n), 0);
      }
    case _ => QuietStep(w, e);
  }

  // ----- Which coordinator is the entry's, and what each shows -----

  /** Setting up makes the next coordinator the entry's, and unloading leaves it with none. */
  function LastSetUp(runtime: Option<nat>, made: nat, es: seq<Event>): (Option<nat>, nat)
    decreases |es|
  {
    if es == [] then (runtime, made)
    else if es[0].Setup? then LastSetUp(Some(made), made + 1, es[1..])
    else if es[0].Unload? then LastSetUp(None, made, es[1..])
    else LastSetUp(runtime, made, es[1..])
  }

  lemma StepKeepsRuntime(w: World, e: Event)
    requires Sound(w) && Possible(w, e) && !e.Setup? && !e.Unload?
    ensures Step(w, e).runtime == w.runtime && |Step(w, e).keepers| == |w.keepers|
  {
    match e
    case Name(k, slot, name) =>
      NameStep(w, k, slot, name);
      TakenKeepsKeepers(w, k, Rename(slot, name), None, k);
    case Answer(k, delivered) =>
      var (n, u) := w.keepers[k].sending.value;
      AnswerStep(w, k, delivered);
      TakenKeepsKeepers(Answered(w, k, delivered), k, u, Some(n), k);
    case _ =>
  }

  /** In every run the entry's coordinator is the last one set up, unless it was unloaded since. */
  lemma {:induction false} EntryHasTheLast(w: World, es: seq<Event>)
    requires Sound(w) && Runs(w, es)
    ensures (Run(w, es).runtime, |Run(w, es).keepers|) == LastSetUp(w.runtime, |w.keepers|, es)
    decreases |es|
  {
    if es != [] {
      StepIsSound(w, es[0]);
      if !es[0].Setup? && !es[0].Unload? {
        StepKeepsRuntime(w, es[0]);
      }
      EntryHasTheLast(Step(w, es[0]), es[1..]);
    }
  }

  /** A new coordinator shows what is stored, goes by the stored report, and has nothing to do. */
  lemma NewCoordinatorIs(w: World)
    requires Sound(w)
    ensures var r := Step(w, Setup);
            && r.keepers[..|w.keepers|] == w.keepers && |r.keepers| == |w.keepers| + 1
            && r.keepers[|w.keepers|] == Keeper(Stored(w), [], None, w.rest.capabilities)
            && r.runtime == Some(|w.keepers|) && Stored(r) == Stored(w)
  {
  }

  /**
    The coordinator that took an update shows what is stored, whether it saved anything or not; the others, the entry's
    own aside, go on showing what they did.
   */
  lemma OperationShows(w: World, k: nat, u: Update, command: Option<nat>, j: nat)
    requires Sound(w) && k < |w.keepers| && j < |w.keepers|
    ensures var r := Taken(w, k, u, command);
            && |r.keepers| == |w.keepers|
            && (j == k ==> r.keepers[j].shown == Stored(r))
            && (j != k && w.runtime != Some(j) ==> r.keepers[j] == w.keepers[j])
  {
    TakenShows(w, k, u, command);
    NormalizedIsNormal(if w.stored.Some? then w.stored.value else map[]);
    UpdateIsPerSlot(Stored(w), u, u.key);
    NormalizedIsNormal(After(Stored(w), u));
  }
}
