/** What the stored slots say, and what each operation makes of them, on values. */
module Slots {
  import opened Wrappers

  datatype Value = Text(s: string) | Flag(b: bool)

  /**
    One stored slot, as a hand-edited or older record may hold it: the two fields DEFAULT_SLOT defines, which may
    be missing, and fields the schema no longer has.
   */
  datatype Fields = Fields(name: Option<Value>, hasPin: Option<Value>, dropped: map<string, Value>)

  const DEFAULT_SLOT := Fields(Some(Text("")), Some(Flag(false)), map[])

  /** The record laid over DEFAULT_SLOT. */
  function OverDefault(fields: Fields): Fields {
    fields.(name := if fields.name.Some? then fields.name else DEFAULT_SLOT.name,
            hasPin := if fields.hasPin.Some? then fields.hasPin else DEFAULT_SLOT.hasPin)
  }

  /** The fields DEFAULT_SLOT defines, with its values where they are missing, and no others. */
  function Normal(fields: Fields): Fields {
    OverDefault(fields.(dropped := map[]))
  }

  predicate IsNormal(fields: Fields) {
    fields.name.Some? && fields.hasPin.Some? && fields.dropped == map[]
  }

  /** Stored slots by slot number. */
  type SlotMap = map<nat, Fields>

  function Normalized(stored: SlotMap): SlotMap {
    map k | k in stored :: Normal(stored[k])
  }

  predicate AllNormal(m: SlotMap) {
    forall k | k in m :: IsNormal(m[k])
  }

  /** What get_slot answers: the slot, or a vacant one. */
  function Read(m: SlotMap, key: nat): Fields {
    if key in m then OverDefault(m[key]) else DEFAULT_SLOT
  }

  datatype Update = Rename(key: nat, name: string) | SetPin(key: nat, name: string) | ClearPin(key: nat)
                  | ClearSlot(key: nat)

  /** The slots after an update, or None when it changes and saves nothing. */
  function Updated(m: SlotMap, u: Update): Option<SlotMap> {
    var slot := if u.key in m then m[u.key] else DEFAULT_SLOT;
    match u
    case Rename(key, name) =>
      if name != "" then Some(m[key := slot.(name := Some(Text(name)))])
      else if key !in m then None
      else
        var unnamed := slot.(name := Some(Text("")));
        Some(if unnamed == DEFAULT_SLOT then m - {key} else m[key := unnamed])
    case SetPin(key, name) => Some(m[key := slot.(name := Some(Text(name))).(hasPin := Some(Flag(true)))])
    case ClearPin(key) => Some(m[key := slot.(hasPin := Some(Flag(false)))])
    case ClearSlot(key) => Some(m[key := DEFAULT_SLOT])
  }

  function After(m: SlotMap, u: Update): SlotMap {
    if Updated(m, u).Some? then Updated(m, u).value else m
  }

  /** One slot after an update, said on that slot alone. */
  function OnSlot(key: nat, slot: Fields, u: Update): Fields {
    if key != u.key then slot
    else match u
      case Rename(_, name) => slot.(name := Some(Text(name)))
      case SetPin(_, name) => slot.(name := Some(Text(name))).(hasPin := Some(Flag(true)))
      case ClearPin(_) => slot.(hasPin := Some(Flag(false)))
      case ClearSlot(_) => DEFAULT_SLOT
  }

  /** An update does to the slot it names what it says, and nothing to any other, vacant slots included. */
  lemma UpdateIsPerSlot(m: SlotMap, u: Update, key: nat)
    requires AllNormal(m)
    ensures AllNormal(After(m, u))
    ensures Read(After(m, u), key) == OnSlot(key, Read(m, key), u)
  {
  }

  /**
    Each operation in the words of a user: a PIN is set with its name, cleared without it, a slot is cleared to nothing,
    a name alone changes, and only a name taken off a slot without a record saves nothing. A record goes exactly when
    its name is taken off and it has no code.
   */
  lemma UpdateSays(m: SlotMap, key: nat, name: string)
    requires AllNormal(m)
    ensures Read(After(m, SetPin(key, name)), key) == Fields(Some(Text(name)), Some(Flag(true)), map[])
    ensures Read(After(m, ClearPin(key)), key) == Fields(Read(m, key).name, Some(Flag(false)), map[])
    ensures Read(After(m, ClearSlot(key)), key) == Fields(Some(Text("")), Some(Flag(false)), map[])
    ensures Read(After(m, Rename(key, name)), key) == Fields(Some(Text(name)), Read(m, key).hasPin, map[])
    ensures Updated(m, SetPin(key, name)).Some? && Updated(m, ClearPin(key)).Some? && Updated(m, ClearSlot(key)).Some?
    ensures Updated(m, Rename(key, name)).None? <==> name == "" && key !in m
    ensures forall u: Update | u.key == key ::
              After(m, u).Keys
              == if u.Rename? && u.name == "" && (key in m ==> m[key].hasPin == Some(Flag(false))) then m.Keys - {key}
                 else m.Keys + {key}
  {
  }

  /** A slot reads with both its fields, whatever is stored: no name and no code where there is nothing. */
  lemma ReadFills(m: SlotMap, key: nat)
    ensures var slot := Read(m, key);
            && (key in m && m[key].name.Some? ==> slot.name == m[key].name)
            && (key in m && m[key].hasPin.Some? ==> slot.hasPin == m[key].hasPin)
            && (key !in m || m[key].name.None? ==> slot.name == Some(Text("")))
            && (key !in m || m[key].hasPin.None? ==> slot.hasPin == Some(Flag(false)))
  {
  }

  lemma NormalizedIsNormal(stored: SlotMap)
    ensures AllNormal(Normalized(stored))
    ensures AllNormal(stored) ==> Normalized(stored) == stored
  {
  }

  /** Reading keeps every slot and what is stored of its two fields, fills in what is missing and drops the rest. */
  lemma NormalizedKeeps(stored: SlotMap, key: nat)
    ensures Normalized(stored).Keys == stored.Keys
    ensures key in stored ==>
              var (was, is_) := (stored[key], Normalized(stored)[key]);
              && (was.name.Some? ==> is_.name == was.name) && (was.name.None? ==> is_.name == Some(Text("")))
              && (was.hasPin.Some? ==> is_.hasPin == was.hasPin)
              && (was.hasPin.None? ==> is_.hasPin == Some(Flag(false)))
              && is_.dropped == map[]
  {
  }

  /** The options beside the slots: the reserved master slots, if stored as a number, and the capability report. */
  datatype Rest = Rest(reserved: Option<int>, capabilities: Option<map<string, int>>)

  /** Lowest slot a PIN command may name. */
  function FirstUserSlot(rest: Rest): (r: nat)
    ensures 1 <= r <= 3
  {
    if rest.reserved.None? then 3
    else if rest.reserved.value < 1 then 1
    else if rest.reserved.value > 3 then 3
    else rest.reserved.value
  }

  /** It is the slot of 1, 2 and 3 that is nearest to what is stored, and 3 when nothing is. */
  lemma FirstUserSlotIsNearest(rest: Rest, slot: nat)
    requires 1 <= slot <= 3
    ensures rest.reserved.None? ==> FirstUserSlot(rest) == 3
    ensures rest.reserved.Some? ==>
              Distance(FirstUserSlot(rest), rest.reserved.value) <= Distance(slot, rest.reserved.value)
  {
  }

  function Distance(a: int, b: int): nat {
    if a < b then b - a else a - b
  }

  /**
    One coordinator: the slots it shows, the PIN operations waiting for its lock in order, the command in
    flight with its place in World.sent, and the report that made its capabilities final.
   */
  datatype Keeper = Keeper(shown: SlotMap, waiting: seq<Update>, sending: Option<(nat, Update)>,
                           reported: Option<map<string, int>>)

  /** A PIN command given to the transport; delivered is None while the outcome is not known. */
  datatype Sent = Sent(keeper: nat, update: Update, delivered: Option<bool>)

  /** An update that changed the stored slots, and the PIN command it followed. */
  datatype Save = Save(keeper: nat, update: Update, command: Option<nat>)

  /** The stored options, every coordinator made so far, the entry's own one, and what happened. */
  datatype World = World(stored: Option<SlotMap>, rest: Rest, keepers: seq<Keeper>, runtime: Option<nat>,
                         sent: seq<Sent>, saves: seq<Save>)

  function Stored(w: World): SlotMap {
    Normalized(if w.stored.Some? then w.stored.value else map[])
  }

  /** Every reference is to something that exists, and the entry's coordinator shows what is stored. */
  ghost predicate Sound(w: World) {
    && (w.runtime.Some? ==> w.runtime.value < |w.keepers| && w.keepers[w.runtime.value].shown == Stored(w))
    && (forall k | 0 <= k < |w.keepers| :: SoundKeeper(k, w.keepers[k], w.sent))
  }

  /** The command in flight is on record as this keeper's last one, and PIN operations never name slot 0. */
  ghost predicate SoundKeeper(k: nat, keeper: Keeper, sent: seq<Sent>) {
    && (keeper.sending.Some? ==>
          var (n, u) := keeper.sending.value;
          && n < |sent| && sent[n] == Sent(k, u, None) && !u.Rename? && u.key >= 1
          && forall m | n < m < |sent| :: sent[m].keeper != k)
    && (forall u | u in keeper.waiting :: !u.Rename? && u.key >= 1)
  }

  function Showing(keepers: seq<Keeper>, k: nat, m: SlotMap): (r: seq<Keeper>)
    ensures |r| == |keepers|
  {
    if k < |keepers| then keepers[k := keepers[k].(shown := m)] else keepers
  }

  /** Re-read, change and save, as one step: the coordinator and the entry's own one then show the outcome. */
  function Taken(w: World, k: nat, u: Update, command: Option<nat>): World
    requires k < |w.keepers|
  {
    var before := Stored(w);
    match Updated(before, u)
    case None => w.(keepers := Showing(w.keepers, k, before))
    case Some(after) =>
      var keepers := Showing(w.keepers, k, after);
      w.(stored := Some(after),
         keepers := if w.runtime.Some? then Showing(keepers, w.runtime.value, after) else keepers,
         saves := w.saves + [Save(k, u, command)])
  }

  /**
    What can happen between two awaits. Ask: a PIN operation is called. Send: the first one waiting gets the
    lock and its command goes out. Answer: its outcome is known. Abandon: its task is cancelled before that.
    Withdraw: the task of one that waits is cancelled.
   */
  datatype Event =
    | Setup
    | Unload
    | Name(k: nat, slot: nat, name: string)
    | Ask(k: nat, u: Update)
    | Withdraw(k: nat, i: nat)
    | Send(k: nat)
    | Answer(k: nat, delivered: bool)
    | Abandon(k: nat)
    | Report(k: nat, answer: Option<map<string, int>>)
    | Reserve(count: int)

  predicate Possible(w: World, e: Event) {
    match e
    case Setup => true
    case Unload => true
    case Name(k, _, _) => k < |w.keepers|
    case Ask(k, u) => k < |w.keepers| && !u.Rename?
    case Withdraw(k, i) => k < |w.keepers| && i < |w.keepers[k].waiting|
    case Send(k) => k < |w.keepers| && w.keepers[k].sending.None? && w.keepers[k].waiting != []
    case Answer(k, _) => k < |w.keepers| && w.keepers[k].sending.Some?
    case Abandon(k) => k < |w.keepers| && w.keepers[k].sending.Some?
    case Report(k, _) => k < |w.keepers|
    case Reserve(_) => true
  }

  /** The answer recorded, before what follows from it. */
  function Answered(w: World, k: nat, delivered: bool): World
    requires Sound(w) && Possible(w, Answer(k, delivered))
  {
    var n := w.keepers[k].sending.value.0;
    w.(keepers := w.keepers[k := w.keepers[k].(sending := None)],
       sent := w.sent[n := w.sent[n].(delivered := Some(delivered))])
  }

  function Step(w: World, e: Event): World
    requires Sound(w) && Possible(w, e)
  {
    match e
    case Setup =>
      w.(keepers := w.keepers + [Keeper(Stored(w), [], None, w.rest.capabilities)], runtime := Some(|w.keepers|))
    case Unload => w.(runtime := None)
    case Name(k, slot, name) => Taken(w, k, Rename(slot, name), None)
    case Ask(k, u) =>
      if u.key < FirstUserSlot(w.rest) then w
      else w.(keepers := w.keepers[k := w.keepers[k].(waiting := w.keepers[k].waiting + [u])])
    case Withdraw(k, i) =>
      var waiting := w.keepers[k].waiting;
      w.(keepers := w.keepers[k := w.keepers[k].(waiting := waiting[..i] + waiting[i + 1..])])
    case Send(k) =>
      var keeper := w.keepers[k];
      var sending := keeper.(waiting := keeper.waiting[1..], sending := Some((|w.sent|, keeper.waiting[0])));
      w.(keepers := w.keepers[k := sending],
         sent := w.sent + [Sent(k, keeper.waiting[0], None)])
    case Answer(k, delivered) =>
      var (n, u) := w.keepers[k].sending.value;
      if delivered then Taken(Answered(w, k, delivered), k, u, Some(n)) else Answered(w, k, delivered)
    case Abandon(k) => w.(keepers := w.keepers[k := w.keepers[k].(sending := None)])
    case Report(k, answer) =>
      if w.keepers[k].reported.Some? || answer.None? then w
      else w.(keepers := w.keepers[k := w.keepers[k].(reported := answer)], rest := w.rest.(capabilities := answer))
    case Reserve(count) => w.(rest := w.rest.(reserved := Some(count)))
  }
}
