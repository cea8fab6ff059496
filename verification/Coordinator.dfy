/**
  The slot coordinator as objects: slot dicts that are changed in place, and a config entry that is written
  to disk only when its new options compare unequal to the ones it has.
 */
module Coordinator {
  import opened Wrappers
  import opened Slots

  /** One slot's dict. */
  class SlotDict {
    var fields: Fields

    constructor (fields: Fields)
      ensures this.fields == fields
    {
      this.fields := fields;
    }
  }

  /** Dicts by slot key. */
  type Dicts = map<nat, SlotDict>

  function Contents(dicts: Dicts): SlotMap
    reads dicts.Values
  {
    map k | k in dicts :: dicts[k].fields
  }

  lemma ContentsAt(dicts: Dicts, key: nat)
    ensures key in Contents(dicts) <==> key in dicts
    ensures key in dicts ==> Contents(dicts)[key] == dicts[key].fields
  {
  }

  lemma ContentsWithout(dicts: Dicts, key: nat)
    ensures Contents(dicts - {key}) == Contents(dicts) - {key}
  {
  }

  lemma ContentsWith(dicts: Dicts, key: nat, dict: SlotDict)
    ensures Contents(dicts[key := dict]) == Contents(dicts)[key := dict.fields]
  {
  }

  /** No dict stands under two keys. */
  ghost predicate Separate(dicts: Dicts) {
    forall j, k | j in dicts && k in dicts && j != k :: dicts[j] != dicts[k]
  }

  function Copied(fields: Fields, keepAll: bool): Fields {
    if keepAll then fields else Normal(fields)
  }

  /** New dicts under the same keys; keepAll false keeps only the fields DEFAULT_SLOT defines. */
  method CopyDicts(stored: Dicts, keepAll: bool) returns (copy: Dicts)
    ensures copy.Keys == stored.Keys && Separate(copy)
    ensures forall k | k in copy :: fresh(copy[k])
    ensures forall k | k in copy :: copy[k].fields == Copied(old(stored[k].fields), keepAll)
  {
    hide Copied;
    copy := map[];
    var keys := stored.Keys;
    while keys != {}
      invariant keys <= stored.Keys && copy.Keys == stored.Keys - keys && Separate(copy)
      invariant forall k | k in copy :: fresh(copy[k]) && copy[k].fields == Copied(old(stored[k].fields), keepAll)
      decreases |keys|
    {
      var k :| k in keys;
      var dict := new SlotDict(Copied(stored[k].fields, keepAll));
      copy := copy[k := dict];
      keys := keys - {k};
    }
  }

  /** Entry options as values: the slots, if there are any, and everything else. */
  type Snapshot = (Option<SlotMap>, Rest)

  /** The config entry. stored is options["slots"], others the rest of the options, saved what is on disk. */
  class ConfigEntry {
    var stored: Option<Dicts>
    var others: Rest
    var saved: Snapshot
    var runtime: Option<Coordinator>

    /** Options as they were read from disk. */
    constructor (stored: Option<Dicts>, others: Rest)
      ensures this.stored == stored && this.others == others && runtime.None? && Saved()
    {
      this.stored, this.others, runtime := stored, others, None;
      saved := (if stored.Some? then Some(Contents(stored.value)) else None, others);
    }

    /** The stored slot dicts, none when the option is missing. */
    function Held(): Dicts
      reads this
    {
      if stored.Some? then stored.value else map[]
    }

    function Options(): Snapshot
      reads this, Held().Values
    {
      (if stored.Some? then Some(Contents(stored.value)) else None, others)
    }

    /** What is on disk is what the options say now. */
    predicate Saved()
      reads this, Held().Values
    {
      saved == Options()
    }

    /** Home Assistant's update: it compares, and writes only what compares unequal. */
    method Update(slots: Option<Dicts>, rest: Rest)
      requires Saved()
      modifies this`stored, this`others, this`saved
      ensures Saved() && others == rest
      ensures Options() == (if slots.Some? then Some(old(Contents(slots.value))) else None, rest)
      ensures stored == old(stored) || stored == slots
    {
      var wanted: Snapshot := (if slots.Some? then Some(Contents(slots.value)) else None, rest);
      if wanted != Options() {
        stored, others, saved := slots, rest, wanted;
      }
    }
  }

  class Coordinator {
    const entry: ConfigEntry
    var slots: Dicts
    var waiting: seq<Update>
    var sending: Option<Update>
    var reported: Option<map<string, int>>

    /** A coordinator starts from the stored slots and the stored capability report. */
    constructor (entry: ConfigEntry)
      ensures this.entry == entry && Showing() && Separate(slots)
      ensures forall k | k in slots :: fresh(slots[k])
      ensures waiting == [] && sending == None && reported == entry.others.capabilities
    {
      this.entry := entry;
      slots := map[];
      waiting, sending, reported := [], None, entry.others.capabilities;
      new;
      LoadSlots();
    }

    /** The coordinator shows what is stored. */
    predicate Showing()
      reads this, entry, slots.Values, entry.Held().Values
    {
      Contents(slots) == Normalized(Contents(entry.Held()))
    }

    /** No dict of the coordinator is also in the entry's options. */
    ghost predicate Apart()
      reads this, entry
    {
      slots.Values !! entry.Held().Values
    }

    method LoadSlots()
      modifies this`slots
      ensures Showing() && Separate(slots)
      ensures forall k | k in slots :: fresh(slots[k])
    {
      slots := CopyDicts(entry.Held(), false);
    }

    method AdoptStoredSlots()
      modifies this`slots
      ensures Showing() && Separate(slots)
      ensures forall k | k in slots :: fresh(slots[k])
    {
      LoadSlots();
    }

    /** A copy of the slot, never the dict the coordinator holds. */
    method GetSlot(key: nat) returns (r: SlotDict)
      ensures fresh(r) && r.fields == Read(Contents(slots), key)
    {
      r := new SlotDict(if key in slots then OverDefault(slots[key].fields) else DEFAULT_SLOT);
    }

    /** Copies of the dicts become the entry's slots, and the entry's own coordinator takes them over. */
    method SaveSlots()
      requires entry.Saved()
      modifies entry`stored, entry`saved, entry`others,
          (if entry.runtime.Some? then {entry.runtime.value} else {})`slots
      ensures entry.Saved() && entry.Options() == (Some(old(Contents(slots))), old(entry.others))
      ensures forall d | d in entry.Held().Values :: fresh(d) || d in old(entry.Held().Values)
      ensures slots == old(slots)
      ensures entry.runtime.Some? && entry.runtime.value != this && entry.runtime.value.entry == entry ==>
                var current := entry.runtime.value;
                Contents(current.slots) == Normalized(old(Contents(slots)))
                    && (forall d | d in current.slots.Values :: fresh(d) && d !in entry.Held().Values)
    {
      var copy := CopyDicts(slots, true);
      assert Contents(copy) == Contents(slots);
      entry.Update(Some(copy), entry.others);
      if entry.runtime.Some? && entry.runtime.value != this {
        entry.runtime.value.AdoptStoredSlots();
      }
    }

    /** What an operation that makes this update leaves behind, as one step on the event loop. */
    twostate predicate Took(u: Update)
      reads this, slots.Values, entry, entry.Held().Values
      reads if entry.runtime.Some? then {entry.runtime.value} + entry.runtime.value.slots.Values else {}
    {
      var before := old(Normalized(Contents(entry.Held())));
      // What is stored is the update of what was stored, whatever this coordinator showed, and it is on disk.
      && Contents(slots) == After(before, u)
      && entry.Saved() && entry.others == old(entry.others) && entry.runtime == old(entry.runtime)
      && (if Updated(before, u).None? then entry.stored == old(entry.stored) && entry.Options() == old(entry.Options())
          else entry.Options() == (Some(After(before, u)), old(entry.others)))
      // The entry's own coordinator shows it too.
      && (Updated(before, u).Some? && entry.runtime.Some? && entry.runtime.value.entry == entry ==>
            Contents(entry.runtime.value.slots) == After(before, u))
      && (Updated(before, u).None? && entry.runtime.Some? && entry.runtime.value != this ==>
            entry.runtime.value.slots == old(entry.runtime.value.slots))
      && (Updated(before, u).Some? && entry.runtime.Some? && entry.runtime.value.entry == entry ==>
            forall d | d in entry.runtime.value.slots.Values :: fresh(d) && d !in entry.Held().Values)
      // No dict is shared between the options and a coordinator, and none that was there before is changed.
      && (forall d | d in slots.Values :: fresh(d))
      && (forall d | d in entry.Held().Values :: (fresh(d) && d !in slots.Values) || d in old(entry.Held().Values))
    }

    /** dict.setdefault with a vacant slot. */
    method SetDefault(key: nat)
      requires Separate(slots)
      modifies this`slots
      ensures Separate(slots) && key in slots
      ensures Contents(slots) == old(Contents(slots))[key := slots[key].fields]
      ensures slots[key].fields == if key in old(slots) then old(slots[key].fields) else DEFAULT_SLOT
      ensures forall d | d in slots.Values :: fresh(d) || d in old(slots.Values)
    {
      if key !in slots {
        var dict := new SlotDict(DEFAULT_SLOT);
        slots := slots[key := dict];
      }
    }

    /** One slot's fields assigned in place. */
    method Put(key: nat, fields: Fields)
      requires Separate(slots) && key in slots
      modifies slots[key]
      ensures slots[key].fields == fields && Contents(slots) == old(Contents(slots))[key := fields]
    {
      slots[key].fields := fields;
    }

    /** A name set or removed in place; a slot left vacant goes. False when there is nothing to save. */
    method Name(key: nat, name: string) returns (changed: bool)
      requires Separate(slots)
      modifies this`slots, slots.Values
      ensures changed <==> Updated(old(Contents(slots)), Rename(key, name)).Some?
      ensures Contents(slots) == After(old(Contents(slots)), Rename(key, name))
      ensures forall d | d in slots.Values :: fresh(d) || d in old(slots.Values)
    {
      hide Contents;
      ContentsAt(slots, key);
      changed := name != "" || key in slots;
      if name != "" {
        SetDefault(key);
        Put(key, slots[key].fields.(name := Some(Text(name))));
      } else if key in slots {
        Put(key, slots[key].fields.(name := Some(Text(""))));
        if slots[key].fields == DEFAULT_SLOT {
          ContentsWithout(slots, key);
          slots := slots - {key};
        }
      }
    }

    /** The changes an update makes in place; false when there is nothing to save. */
    method Change(u: Update) returns (changed: bool)
      requires Separate(slots)
      modifies this`slots, slots.Values
      ensures changed <==> Updated(old(Contents(slots)), u).Some?
      ensures Contents(slots) == After(old(Contents(slots)), u)
      ensures forall d | d in slots.Values :: fresh(d) || d in old(slots.Values)
    {
      hide Contents;
      ContentsAt(slots, u.key);
      changed := true;
      match u {
        case Rename(key, name) =>
          changed := Name(key, name);
        case SetPin(key, name) =>
          SetDefault(key);
          Put(key, slots[key].fields.(name := Some(Text(name)), hasPin := Some(Flag(true))));
        case ClearPin(key) =>
          SetDefault(key);
          Put(key, slots[key].fields.(hasPin := Some(Flag(false))));
        case ClearSlot(key) =>
          var dict := new SlotDict(DEFAULT_SLOT);
          ContentsWith(slots, key, dict);
          slots := slots[key := dict];
      }
    }

    /** The stored slots re-read and changed, before anything is saved. */
    method ReadAndChange(u: Update) returns (changed: bool)
      modifies this`slots
      ensures var before := Normalized(old(Contents(entry.Held())));
              Contents(slots) == After(before, u) && (changed <==> Updated(before, u).Some?)
      ensures forall d | d in slots.Values :: fresh(d)
    {
      hide Contents, Normalized, After, Updated;
      LoadSlots();
      changed := Change(u);
    }

    /**
      The step every slot operation takes once it may change local state: set_slot_name at once, the PIN
      operations when their command is reported as delivered.
     */
    method TakeUpdate(u: Update)
      requires entry.Saved()
      modifies this`slots, entry`stored, entry`saved, entry`others
      modifies (if entry.runtime.Some? then {entry.runtime.value} else {})`slots
      ensures Took(u)
    {
      ghost var before := Normalized(Contents(entry.Held()));
      NormalizedIsNormal(Contents(entry.Held()));
      UpdateIsPerSlot(before, u, u.key);
      NormalizedIsNormal(After(before, u));
      hide Contents, Normalized, AllNormal, After, Updated;
      var changed := ReadAndChange(u);
      if changed {
        SaveSlots();
      }
    }

    /** A PIN operation is called: reserved master slots are refused, the others wait for the PIN lock. */
    method Ask(u: Update) returns (accepted: bool)
      modifies this`waiting
      ensures accepted <==> u.key >= FirstUserSlot(entry.others)
      ensures waiting == if accepted then old(waiting) + [u] else old(waiting)
    {
      accepted := u.key >= FirstUserSlot(entry.others);
      if accepted {
        waiting := waiting + [u];
      }
    }

    /** The task of a waiting operation is cancelled. */
    method Withdraw(i: nat)
      requires i < |waiting|
      modifies this`waiting
      ensures waiting == old(waiting[..i] + waiting[i + 1..])
    {
      waiting := waiting[..i] + waiting[i + 1..];
    }

    /** The PIN lock is free and goes to the first operation waiting, which sends its command. */
    method Send()
      requires sending.None? && waiting != []
      modifies this`waiting, this`sending
      ensures sending == Some(old(waiting[0])) && waiting == old(waiting[1..])
    {
      sending, waiting := Some(waiting[0]), waiting[1..];
    }

    /** The lock's answer, or None for a read that went unanswered; the first answer is final. */
    method Report(answer: Option<map<string, int>>)
      requires entry.Saved()
      modifies this`reported, entry`stored, entry`others, entry`saved
      ensures entry.Saved() && entry.stored == old(entry.stored)
      ensures entry.Options().0 == old(entry.Options().0)
      ensures var final := old(reported).Some? || answer.None?;
              && reported == (if final then old(reported) else answer)
              && entry.others == if final then old(entry.others) else old(entry.others).(capabilities := answer)
    {
      if reported.None? && answer.Some? {
        reported := answer;
        entry.Update(entry.stored, entry.others.(capabilities := answer));
      }
    }
  }
}
