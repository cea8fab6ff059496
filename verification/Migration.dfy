/** The registry rewrite at every setup: rows keyed on the lock's address become rows keyed on the config entry. */
module Migration {
  import opened Wrappers

  const DOMAIN := "onesti_lock"

  type Identifier = (string, string)

  /** A device row: its identifiers and the config entries it belongs to. */
  datatype Device = Device(identifiers: set<Identifier>, entries: set<string>)

  /** An entity row. Nothing of it but the unique id is ever rewritten. */
  datatype Entity = Entity(domain: string, platform: string, uniqueId: string, entry: Option<string>)

  type Devices = map<nat, Device>

  type Entities = map<string, Entity>

  /** The config entry being set up. */
  datatype Entry = Entry(id: string, ieee: string)

  function LowerChar(c: char): char {
    if 'A' <= c <= 'Z' then c - 'A' + 'a' else c
  }

  function Lower(s: string): (r: string)
    ensures |r| == |s| && forall i | 0 <= i < |s| :: r[i] == LowerChar(s[i])
  {
    seq(|s|, i requires 0 <= i < |s| => LowerChar(s[i]))
  }

  /** The capital of an ASCII letter stands 32 below it. */
  predicate IsCapitalOf(a: char, b: char) {
    'A' <= a <= 'Z' && b as int == a as int + 32
  }

  /** The same letter, in either case. */
  predicate SameLetter(a: char, b: char) {
    a == b || IsCapitalOf(a, b) || IsCapitalOf(b, a)
  }

  /** One text as it may also be written, with each letter in either case. */
  predicate Spelled(s: string, t: string) {
    |s| == |t| && forall i | 0 <= i < |s| :: SameLetter(s[i], t[i])
  }

  lemma SameLetterIff(a: char, b: char)
    ensures SameLetter(a, b) <==> LowerChar(a) == LowerChar(b)
  {
  }

  /** Two texts are the same in lower case exactly when they differ in the case of letters alone. */
  lemma LowerIgnoresCase(s: string, t: string)
    ensures Lower(s) == Lower(t) <==> Spelled(s, t)
  {
    hide SameLetter, LowerChar;
    if Lower(s) == Lower(t) {
      forall i | 0 <= i < |s| ensures SameLetter(s[i], t[i]) {
        assert Lower(s)[i] == Lower(t)[i];
        SameLetterIff(s[i], t[i]);
      }
    }
    if Spelled(s, t) {
      forall i | 0 <= i < |s| ensures Lower(s)[i] == Lower(t)[i] {
        SameLetterIff(s[i], t[i]);
      }
    }
  }

  /** What an address-keyed unique id starts with, in lower case. */
  function Prefix(ieee: string): string {
    Lower(ieee) + "-"
  }

  predicate Keyed(uniqueId: string, e: Entry) {
    Prefix(e.ieee) <= Lower(uniqueId)
  }

  /** The address and the entry id cannot be mistaken for one another, which an address and a ULID never are. */
  predicate Apart(e: Entry) {
    !(Prefix(e.ieee) <= Prefix(e.id)) && !(Prefix(e.id) <= Prefix(e.ieee))
  }

  function Own(e: Entry): Identifier {
    (DOMAIN, e.id)
  }

  function Stale(d: Device, e: Entry): set<Identifier> {
    set i | i in d.identifiers && i.0 == DOMAIN && Lower(i.1) == Lower(e.ieee)
  }

  /** No identifier stands on two devices. */
  ghost predicate Unique(devices: Devices) {
    forall j, k | j in devices && k in devices && j != k :: devices[j].identifiers !! devices[k].identifiers
  }

  /** Existing rows, each once. */
  predicate Rows<T(==)>(order: seq<T>, keys: set<T>) {
    && (forall i, j | 0 <= i < j < |order| :: order[i] != order[j])
    && (forall k | k in order :: k in keys)
  }

  lemma RowsUpTo<T>(order: seq<T>, keys: set<T>, n: nat)
    requires Rows(order, keys) && n <= |order|
    ensures Rows(order[..n], keys)
    ensures n < |order| ==> order[n] !in order[..n] && order[n] in keys && order[..n + 1][..n] == order[..n]
  {
  }

  /** The rows of one config entry, each once, in whatever order the registry gives them. */
  ghost predicate Lists(order: seq<nat>, devices: Devices, e: Entry) {
    && Rows(order, devices.Keys)
    && (forall id :: id in order <==> id in devices && e.id in devices[id].entries)
  }

  /** The entry no longer uses the row; a row no entry uses goes. */
  function Dropped(devices: Devices, id: nat, entry: string): Devices
    requires id in devices
  {
    var left := devices[id].entries - {entry};
    if left == {} then devices - {id} else devices[id := devices[id].(entries := left)]
  }

  function Renamed(d: Device, e: Entry): Device {
    d.(identifiers := d.identifiers - Stale(d, e) + {Own(e)})
  }

  /** The registry refuses identifiers another device has. */
  predicate Collides(devices: Devices, id: nat, identifiers: set<Identifier>) {
    exists j | j in devices :: j != id && devices[j].identifiers * identifiers != {}
  }

  /** Where the walk over the devices has come to. */
  datatype Walk = Walk(devices: Devices, owner: Option<nat>, failed: bool)

  function Visit(w: Walk, id: nat, e: Entry): Walk
    requires id in w.devices
  {
    var d := w.devices[id];
    if w.failed || Stale(d, e) == {} then w
    else if w.owner.Some? && w.owner.value != id then w.(devices := Dropped(w.devices, id, e.id))
    else if Collides(w.devices, id, Renamed(d, e).identifiers) then w.(failed := true)
    else Walk(w.devices[id := Renamed(d, e)], Some(id), false)
  }

  /** The first of the rows that has the entry's own identifier. */
  function Owner(devices: Devices, order: seq<nat>, e: Entry): (r: Option<nat>)
    requires forall id | id in order :: id in devices
    ensures r.None? <==> forall id | id in order :: Own(e) !in devices[id].identifiers
    ensures r.Some? ==> r.value in order && Own(e) in devices[r.value].identifiers
  {
    if order == [] then None
    else if Own(e) in devices[order[0]].identifiers then Some(order[0])
    else
      assert forall id | id in order :: id == order[0] || id in order[1..];
      Owner(devices, order[1..], e)
  }

  function Walked(devices: Devices, owner: Option<nat>, order: seq<nat>, e: Entry): (w: Walk)
    requires Rows(order, devices.Keys)
    ensures forall id | id in devices && id !in order :: id in w.devices && w.devices[id] == devices[id]
  {
    if order == [] then Walk(devices, owner, false)
    else
      RowsUpTo(order, devices.Keys, |order| - 1);
      Visit(Walked(devices, owner, order[..|order| - 1], e), order[|order| - 1], e)
  }

  predicate Held(entities: Entities, domain: string, platform: string, uniqueId: string) {
    exists k | k in entities :: HasKey(entities[k], domain, platform, uniqueId)
  }

  predicate HasKey(x: Entity, domain: string, platform: string, uniqueId: string) {
    x.domain == domain && x.platform == platform && x.uniqueId == uniqueId
  }

  /** The unique id a row ends up with: an address-keyed one keeps only its suffix. */
  function Target(uniqueId: string, e: Entry): string {
    if Keyed(uniqueId, e) then e.id + "-" + uniqueId[|Prefix(e.ieee)|..] else uniqueId
  }

  function Rewrite(entities: Entities, k: string, e: Entry): Entities
    requires k in entities
  {
    var x := entities[k];
    if !Keyed(x.uniqueId, e) then entities
    else if Held(entities, x.domain, x.platform, Target(x.uniqueId, e)) then entities - {k}
    else entities[k := x.(uniqueId := Target(x.uniqueId, e))]
  }

  function Rewritten(entities: Entities, order: seq<string>, e: Entry): (r: Entities)
    requires Rows(order, entities.Keys)
    ensures forall k | k in entities && k !in order :: k in r && r[k] == entities[k]
    ensures r.Keys <= entities.Keys
  {
    if order == [] then entities
    else
      RowsUpTo(order, entities.Keys, |order| - 1);
      Rewrite(Rewritten(entities, order[..|order| - 1], e), order[|order| - 1], e)
  }

  lemma WalkedNext(devices: Devices, owner: Option<nat>, order: seq<nat>, n: nat, e: Entry)
    requires Rows(order, devices.Keys) && n < |order|
    ensures Rows(order[..n], devices.Keys) && Rows(order[..n + 1], devices.Keys)
    ensures var w := Walked(devices, owner, order[..n], e);
            && order[n] in w.devices && w.devices[order[n]] == devices[order[n]]
            && Walked(devices, owner, order[..n + 1], e) == Visit(w, order[n], e)
  {
    RowsUpTo(order, devices.Keys, n);
    RowsUpTo(order, devices.Keys, n + 1);
  }

  lemma RewrittenNext(entities: Entities, order: seq<string>, n: nat, e: Entry)
    requires Rows(order, entities.Keys) && n < |order|
    ensures Rows(order[..n], entities.Keys) && Rows(order[..n + 1], entities.Keys)
    ensures var r := Rewritten(entities, order[..n], e);
            && order[n] in r && r[order[n]] == entities[order[n]]
            && Rewritten(entities, order[..n + 1], e) == Rewrite(r, order[n], e)
  {
    RowsUpTo(order, entities.Keys, n);
    RowsUpTo(order, entities.Keys, n + 1);
  }

  lemma {:induction false} FailureStays(devices: Devices, owner: Option<nat>, order: seq<nat>, n: nat, e: Entry)
    requires Rows(order, devices.Keys) && n <= |order| && Rows(order[..n], devices.Keys)
    requires Walked(devices, owner, order[..n], e).failed
    ensures Walked(devices, owner, order, e) == Walked(devices, owner, order[..n], e)
  {
    if n < |order| {
      RowsUpTo(order, devices.Keys, |order| - 1);
      assert order[..|order| - 1][..n] == order[..n];
      FailureStays(devices, owner, order[..|order| - 1], n, e);
    } else {
      assert order[..n] == order;
    }
  }

  /** Both registries, rewritten in place. */
  class Registries {
    var devices: Devices
    var entities: Entities

    constructor (devices: Devices, entities: Entities)
      ensures this.devices == devices && this.entities == entities
    {
      this.devices, this.entities := devices, entities;
    }

    method VisitDevice(id: nat, owner: Option<nat>, e: Entry) returns (next: Option<nat>, ok: bool)
      requires id in devices
      modifies this`devices
      ensures Walk(devices, next, !ok) == Visit(Walk(old(devices), owner, false), id, e)
    {
      next, ok := owner, true;
      var stale := Stale(devices[id], e);
      if stale != {} {
        if owner.Some? && owner.value != id {
          devices := Dropped(devices, id, e.id);
        } else {
          var identifiers := devices[id].identifiers - stale + {Own(e)};
          if Collides(devices, id, identifiers) {
            ok := false;
          } else {
            devices := devices[id := devices[id].(identifiers := identifiers)];
            next := Some(id);
          }
        }
      }
    }

    method MigrateDevices(order: seq<nat>, e: Entry) returns (ok: bool)
      requires Lists(order, devices, e)
      modifies this`devices
      ensures var w := Walked(old(devices), Owner(old(devices), order, e), order, e);
              devices == w.devices && ok == !w.failed
    {
      ghost var before := devices;
      var owner := Owner(devices, order, e);
      ghost var first := owner;
      assert Walked(before, first, order[..0], e) == Walk(devices, owner, false);
      hide Rows, Walked, Visit;
      var n := 0;
      while n < |order|
        invariant 0 <= n <= |order|
        invariant Rows(order[..n], before.Keys) && Walked(before, first, order[..n], e) == Walk(devices, owner, false)
      {
        var id := order[n];
        WalkedNext(before, first, order, n, e);
        owner, ok := VisitDevice(id, owner, e);
        if !ok {
          FailureStays(before, first, order, n + 1, e);
          return;
        }
        n := n + 1;
      }
      assert order[..n] == order;
      ok := true;
    }

    method MigrateEntities(order: seq<string>, e: Entry)
      requires Rows(order, entities.Keys)
      modifies this`entities
      ensures entities == Rewritten(old(entities), order, e)
    {
      assert Rewritten(entities, order[..0], e) == entities;
      hide Rows, Rewritten, Keyed, Held;
      var n := 0;
      while n < |order|
        invariant 0 <= n <= |order|
        invariant Rows(order[..n], old(entities.Keys)) && entities == Rewritten(old(entities), order[..n], e)
      {
        var k := order[n];
        RewrittenNext(old(entities), order, n, e);
        var x := entities[k];
        if Keyed(x.uniqueId, e) {
          var uniqueId := e.id + "-" + x.uniqueId[|Prefix(e.ieee)|..];
          if Held(entities, x.domain, x.platform, uniqueId) {
            entities := entities - {k};
          } else {
            entities := entities[k := x.(uniqueId := uniqueId)];
          }
        }
        n := n + 1;
      }
      assert order[..n] == order;
    }

    /** Devices first; a refused identifier is raised and leaves the entities alone. */
    method Migrate(devicesOf: seq<nat>, entitiesOf: seq<string>, e: Entry) returns (ok: bool)
      requires Lists(devicesOf, devices, e)
      requires Rows(entitiesOf, entities.Keys)
      modifies this
      ensures var w := Walked(old(devices), Owner(old(devices), devicesOf, e), devicesOf, e);
              && devices == w.devices && ok == !w.failed
              && entities == if ok then Rewritten(old(entities), entitiesOf, e) else old(entities)
    {
      ok := MigrateDevices(devicesOf, e);
      if ok {
        MigrateEntities(entitiesOf, e);
      }
    }
  }
}
