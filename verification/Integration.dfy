/** One config entry and every coordinator made on it, step by step, against the values of module Slots. */
module Integration {
  import opened Wrappers
  import opened Slots
  import opened SlotTheorems
  import opened Coordinator

  /** Nothing moves but what one coordinator has waiting and in flight. */
  predicate OnlyLists(w: World, r: World, i: nat, waiting: seq<Update>, sending: Option<Update>) {
    && r.stored == w.stored && r.rest == w.rest && r.runtime == w.runtime && |r.keepers| == |w.keepers|
    && forall j | 0 <= j < |w.keepers| ::
         && (j != i ==> r.keepers[j] == w.keepers[j])
         && r.keepers[j].shown == w.keepers[j].shown && r.keepers[j].reported == w.keepers[j].reported
         && (j == i ==> r.keepers[j].waiting == waiting && Sending(r.keepers[j]) == sending)
  }

  function Sending(keeper: Keeper): Option<Update> {
    if keeper.sending.Some? then Some(keeper.sending.value.1) else None
  }

  /** A re-read, change and save about to happen. */
  datatype Taking = Taking(w: World, i: nat, u: Update, command: Option<nat>)

  /** One coordinator's lists about to move. */
  datatype Move = Move(w: World, i: nat, r: World)

  class Integration {
    const entry: ConfigEntry
    var coordinators: seq<Coordinator>
    /** Every dict get_slot has returned; its caller may change it at any time. */
    ghost var handed: set<SlotDict>

    constructor (stored: Option<Dicts>, others: Rest)
      ensures Shows(World(if stored.Some? then Some(Contents(stored.value)) else None, others, [], None, [], []))
    {
      entry := new ConfigEntry(stored, others);
      coordinators, handed := [], {};
    }

    /** What one coordinator object is as a value. */
    ghost predicate Is(c: Coordinator, keeper: Keeper)
      reads c, c.slots.Values
    {
      && Contents(c.slots) == keeper.shown && c.waiting == keeper.waiting && c.reported == keeper.reported
      && c.sending == Sending(keeper)
    }

    /**
      The objects are the world w; what is on disk is what the options say; no slot dict reachable from the options
      is held by any coordinator, and none of either was ever handed out.
     */
    ghost predicate Shows(w: World)
      reads this, entry, coordinators, entry.Held().Values
      reads set c: Coordinator, d: SlotDict | c in coordinators && d in c.slots.Values :: d
    {
      && Sound(w) && entry.Saved() && entry.Options() == (w.stored, w.rest)
      && |coordinators| == |w.keepers|
      && (forall i, j | 0 <= i < j < |coordinators| :: coordinators[i] != coordinators[j])
      && entry.runtime == (if w.runtime.Some? then Some(coordinators[w.runtime.value]) else None)
      && handed !! entry.Held().Values
      && (forall i | 0 <= i < |coordinators| ::
            var c := coordinators[i];
            c.entry == entry && c.Apart() && handed !! c.slots.Values && Is(c, w.keepers[i]))
    }

    /** get_slot: the caller gets a dict of its own. */
    method GetSlot(ghost w: World, i: nat, key: nat) returns (d: SlotDict)
      requires Shows(w) && i < |coordinators|
      modifies this`handed
      ensures Shows(w) && d in handed && d.fields == Read(w.keepers[i].shown, key)
    {
      hide Sound, Contents;
      d := coordinators[i].GetSlot(key);
      handed := handed + {d};
    }

    /** Whatever a caller does to a dict it was handed, now or later, nothing stored or shown changes. */
    method ChangeHandedOut(ghost w: World, d: SlotDict, fields: Fields)
      requires Shows(w) && d in handed
      modifies d
      ensures Shows(w) && d.fields == fields
    {
      d.fields := fields;
      assert forall i | 0 <= i < |coordinators| :: Is(coordinators[i], w.keepers[i]);
    }

    /** Setting the entry up: a new coordinator, which becomes the entry's. */
    method Setup(ghost w: World)
      requires Shows(w)
      modifies this`coordinators, entry`runtime
      ensures Shows(Step(w, Event.Setup))
    {
      assert Normalized(Contents(entry.Held())) == Stored(w);
      hide Sound, Contents, Normalized, Stored;
      var c := new Coordinator(entry);
      assert Shows(w);
      Attach(w, c);
    }

    method Attach(ghost w: World, c: Coordinator)
      requires Shows(w) && c !in coordinators
      requires c.entry == entry && c.Apart() && handed !! c.slots.Values
      requires Is(c, Keeper(Stored(w), [], None, w.rest.capabilities))
      modifies this`coordinators, entry`runtime
      ensures Shows(Step(w, Event.Setup))
    {
      StepIsSound(w, Event.Setup);
      hide Sound, Contents, Normalized, Stored;
      coordinators := coordinators + [c];
      entry.runtime := Some(c);
    }

    /** The outcome of a save, said with After. */
    lemma AfterIs(w: World, i: nat, u: Update, command: Option<nat>)
      requires Sound(w) && i < |w.keepers|
      ensures var r := Taken(w, i, u, command);
              && r.rest == w.rest && r.sent == w.sent && r.runtime == w.runtime && |r.keepers| == |w.keepers|
              && r.stored == (if Updated(Stored(w), u).None? then w.stored else Some(After(Stored(w), u)))
              && (forall j | 0 <= j < |w.keepers| ::
                    r.keepers[j] == w.keepers[j].(shown :=
                      if j == i || (w.runtime == Some(j) && Updated(Stored(w), u).Some?) then After(Stored(w), u)
                      else w.keepers[j].shown))
    {
    }

    /** A coordinator's lists are kept, and unless it is coordinator i or the entry's own one its slots are too. */
    twostate predicate Kept(c: Coordinator, main: Coordinator)
      reads this, entry, c, c.slots.Values
    {
      && c.entry == entry && c.waiting == old(c.waiting) && c.sending == old(c.sending) && c.reported == old(c.reported)
      && (c != main && entry.runtime != Some(c) ==> c.slots == old(c.slots))
      && (c != main && c.slots == old(c.slots) ==> Contents(c.slots) == old(Contents(c.slots)))
    }

    twostate predicate OnlySlotsMoved(i: nat)
      reads this, entry, coordinators, set c: Coordinator, d: SlotDict | c in coordinators && d in c.slots.Values :: d
    {
      && coordinators == old(coordinators) && i < |old(coordinators)|
      && forall j | 0 <= j < |old(coordinators)| :: Kept(old(coordinators[j]), old(coordinators[i]))
    }

    twostate lemma StillApart(t: Taking)
      requires old(Shows(t.w)) && OnlySlotsMoved(t.i) && coordinators[t.i].Took(t.u)
      requires handed == old(handed)
      ensures forall j | 0 <= j < |coordinators| :: coordinators[j].Apart() && handed !! coordinators[j].slots.Values
      ensures handed !! entry.Held().Values
    {
      hide Sound, Contents, Normalized, After, Updated;
      forall j | 0 <= j < |coordinators|
        ensures coordinators[j].Apart() && handed !! coordinators[j].slots.Values
      {
        var c := coordinators[j];
        assert old(c.Apart()) && Kept(c, coordinators[t.i]);
        forall d | d in c.slots.Values ensures d !in entry.Held().Values {
        }
      }
    }

    twostate lemma StillIs(t: Taking)
      requires old(Shows(t.w)) && OnlySlotsMoved(t.i) && coordinators[t.i].Took(t.u)
      requires Stored(t.w) == old(Normalized(Contents(entry.Held())))
      ensures forall j | 0 <= j < |coordinators| :: Is(coordinators[j], Taken(t.w, t.i, t.u, t.command).keepers[j])
    {
      var Taking(w, i, u, command) := t;
      AfterIs(w, i, u, command);
      var r := Taken(w, i, u, command);
      assert w.runtime.Some? ==> w.runtime.value < |coordinators|;
      hide Sound, Contents, Normalized, After, Updated, Stored, Taken;
      forall j | 0 <= j < |coordinators|
        ensures Is(coordinators[j], r.keepers[j])
      {
        var c := coordinators[j];
        assert old(Is(coordinators[j], w.keepers[j]));
        assert Kept(c, coordinators[i]);
        assert entry.runtime == Some(c) <==> w.runtime == Some(j);
        if j != i && (entry.runtime != Some(c) || Updated(Stored(w), u).None?) {
          assert Contents(c.slots) == old(Contents(c.slots));
        }
      }
    }

    method TakeThrough(ghost w: World, i: nat, u: Update)
      requires Shows(w) && i < |coordinators|
      modifies coordinators, entry
      ensures OnlySlotsMoved(i) && coordinators[i].Took(u) && handed == old(handed)
    {
      assert entry.runtime.Some? ==> entry.runtime.value in coordinators;
      hide Sound, Contents, Normalized, After, Updated;
      coordinators[i].TakeUpdate(u);
      forall j | 0 <= j < |coordinators| ensures Kept(coordinators[j], coordinators[i]) {
        assert old(coordinators[j].Apart());
      }
    }

    /** Re-read, change and save through one coordinator. */
    method Take(ghost w: World, i: nat, u: Update, ghost command: Option<nat>)
      requires Shows(w) && i < |coordinators|
      modifies coordinators, entry
      ensures Shows(Taken(w, i, u, command)) && coordinators == old(coordinators)
    {
      assert Normalized(Contents(entry.Held())) == Stored(w);
      hide Sound, Contents, Normalized, After, Updated, Stored, Taken;
      TakeThrough(w, i, u);
      StillApart(Taking(w, i, u, command));
      StillIs(Taking(w, i, u, command));
      AfterIs(w, i, u, command);
      TakenIsSound(w, i, u, command);
    }

    method SetSlotName(ghost w: World, i: nat, slot: nat, name: string)
      requires Shows(w) && i < |coordinators|
      modifies coordinators, entry
      ensures Shows(Step(w, Event.Name(i, slot, name)))
    {
      Take(w, i, Rename(slot, name), None);

    }

    /** Home Assistant drops runtime_data on unload; coordinators with work in progress live on. */
    method Unload(ghost w: World)
      requires Shows(w)
      modifies entry`runtime
      ensures Shows(Step(w, Event.Unload))
    {
      StepIsSound(w, Event.Unload);
      hide Sound, Contents;
      entry.runtime := None;
    }

    /** A coordinator's lists may move if it is the main one; its slots stay what they were. */
    twostate predicate ListsOnly(c: Coordinator, main: Coordinator)
      reads c, c.slots.Values
    {
      && c.slots == old(c.slots) && Contents(c.slots) == old(Contents(c.slots)) && c.reported == old(c.reported)
      && (c != main ==> c.waiting == old(c.waiting) && c.sending == old(c.sending))
    }

    twostate predicate OnlyListsMoved(i: nat)
      reads this, entry, coordinators, entry.Held().Values
      reads set c: Coordinator, d: SlotDict | c in coordinators && d in c.slots.Values :: d
    {
      && coordinators == old(coordinators) && i < |old(coordinators)| && handed == old(handed)
      && unchanged(entry) && entry.Options() == old(entry.Options())
      && forall j | 0 <= j < |old(coordinators)| :: ListsOnly(old(coordinators[j]), old(coordinators[i]))
    }

    twostate lemma ListsShow(m: Move)
      requires old(Shows(m.w)) && OnlyListsMoved(m.i) && Sound(m.r)
      requires OnlyLists(m.w, m.r, m.i, coordinators[m.i].waiting, coordinators[m.i].sending)
      ensures Shows(m.r)
    {
      hide Sound, Contents, Sending;
      forall j | 0 <= j < |coordinators|
        ensures var c := coordinators[j];
                c.entry == entry && c.Apart() && handed !! c.slots.Values && Is(c, m.r.keepers[j])
      {
        assert ListsOnly(coordinators[j], coordinators[m.i]);
        assert old(coordinators[j].Apart() && Is(coordinators[j], m.w.keepers[j]));
      }
    }

    method Ask(ghost w: World, i: nat, u: Update)
      requires Shows(w) && Possible(w, Event.Ask(i, u))
      modifies coordinators
      ensures Shows(Step(w, Event.Ask(i, u)))
    {
      ghost var r := Step(w, Event.Ask(i, u));
      StepIsSound(w, Event.Ask(i, u));
      hide Sound, Contents;
      var accepted := coordinators[i].Ask(u);
      assert OnlyLists(w, r, i, coordinators[i].waiting, coordinators[i].sending);
      assert OnlyListsMoved(i);
      hide *;
      ListsShow(Move(w, i, r));
    }

    method Withdraw(ghost w: World, i: nat, place: nat)
      requires Shows(w) && Possible(w, Event.Withdraw(i, place))
      modifies coordinators
      ensures Shows(Step(w, Event.Withdraw(i, place)))
    {
      ghost var r := Step(w, Event.Withdraw(i, place));
      StepIsSound(w, Event.Withdraw(i, place));
      hide Sound, Contents;
      coordinators[i].Withdraw(place);
      assert OnlyLists(w, r, i, coordinators[i].waiting, coordinators[i].sending);
      assert OnlyListsMoved(i);
      hide *;
      ListsShow(Move(w, i, r));
    }

    method Send(ghost w: World, i: nat)
      requires Shows(w) && Possible(w, Event.Send(i))
      modifies coordinators
      ensures Shows(Step(w, Event.Send(i)))
    {
      ghost var r := Step(w, Event.Send(i));
      StepIsSound(w, Event.Send(i));
      hide Sound, Contents;
      coordinators[i].Send();
      assert OnlyLists(w, r, i, coordinators[i].waiting, coordinators[i].sending);
      assert OnlyListsMoved(i);
      hide *;
      ListsShow(Move(w, i, r));
    }

    method Release(ghost w: World, i: nat, ghost delivered: bool) returns (u: Update)
      requires Shows(w) && Possible(w, Event.Answer(i, delivered))
      modifies coordinators
      ensures Shows(Answered(w, i, delivered)) && coordinators == old(coordinators) && u == w.keepers[i].sending.value.1
    {
      ghost var r := Answered(w, i, delivered);
      AnsweredIsSound(w, i, delivered);
      hide Sound, Contents;
      u := coordinators[i].sending.value;
      coordinators[i].sending := None;
      assert OnlyLists(w, r, i, coordinators[i].waiting, coordinators[i].sending);
      assert OnlyListsMoved(i);
      hide *;
      ListsShow(Move(w, i, r));
    }

    /** The PIN lock is released whatever the outcome; local state changes only on a reported delivery. */
    method Answer(ghost w: World, i: nat, delivered: bool)
      requires Shows(w) && Possible(w, Event.Answer(i, delivered))
      modifies coordinators, entry
      ensures Shows(Step(w, Event.Answer(i, delivered)))
    {
      AnswerStep(w, i, delivered);
      ghost var a := Answered(w, i, delivered);
      ghost var n := w.keepers[i].sending.value.0;
      assert |a.keepers| == |w.keepers|;
      hide Contents, Step, Taken, Answered;
      var u := Release(w, i, delivered);
      if delivered {
        Take(a, i, u, Some(n));
      }
    }

    method Abandon(ghost w: World, i: nat)
      requires Shows(w) && Possible(w, Event.Abandon(i))
      modifies coordinators
      ensures Shows(Step(w, Event.Abandon(i)))
    {
      ghost var r := Step(w, Event.Abandon(i));
      StepIsSound(w, Event.Abandon(i));
      hide Sound, Contents;
      coordinators[i].sending := None;
      assert OnlyLists(w, r, i, coordinators[i].waiting, coordinators[i].sending);
      assert OnlyListsMoved(i);
      hide *;
      ListsShow(Move(w, i, r));
    }

    lemma ReportIs(w: World, i: nat, answer: Option<map<string, int>>)
      requires Sound(w) && i < |w.keepers|
      ensures var r := Step(w, Event.Report(i, answer));
              var final := w.keepers[i].reported.Some? || answer.None?;
              && r.stored == w.stored && Stored(r) == Stored(w) && r.runtime == w.runtime
              && r.rest == (if final then w.rest else w.rest.(capabilities := answer))
              && |r.keepers| == |w.keepers|
              && forall j | 0 <= j < |w.keepers| ::
                   r.keepers[j] == if j == i && !final then w.keepers[j].(reported := answer) else w.keepers[j]
    {
    }

    method Report(ghost w: World, i: nat, answer: Option<map<string, int>>)
      requires Shows(w) && i < |coordinators|
      modifies coordinators, entry
      ensures Shows(Step(w, Event.Report(i, answer)))
    {
      StepIsSound(w, Event.Report(i, answer));
      ReportIs(w, i, answer);
      ghost var r := Step(w, Event.Report(i, answer));
      hide Sound, Contents, Normalized, Stored, Step;
      coordinators[i].Report(answer);
      forall j | 0 <= j < |coordinators|
        ensures coordinators[j].Apart() && handed !! coordinators[j].slots.Values && Is(coordinators[j], r.keepers[j])
      {
        assert old(coordinators[j].Apart() && Is(coordinators[j], w.keepers[j]));
      }
    }

    /** The settings step merges the reserved slots into the options as they are. */
    method Reserve(ghost w: World, count: int)
      requires Shows(w)
      modifies entry
      ensures Shows(Step(w, Event.Reserve(count)))
    {
      StepIsSound(w, Event.Reserve(count));
      hide Sound, Contents;
      entry.Update(entry.stored, entry.others.(reserved := Some(count)));
    }
  }
}
