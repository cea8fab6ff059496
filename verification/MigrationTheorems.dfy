/** What the registry rewrite leaves behind. */
module MigrationTheorems {
  import opened Wrappers
  import opened Migration

  /** The row that ends up with the entry's identifier: the one that has it, or the first stale one. */
  function Winner(devices: Devices, owner: Option<nat>, order: seq<nat>, e: Entry): (r: Option<nat>)
    requires forall id | id in order :: id in devices
    ensures owner.Some? ==> r == owner
    ensures r.None? <==> owner.None? && forall id | id in order :: Stale(devices[id], e) == {}
    ensures owner.None? && r.Some? ==> r.value in order && Stale(devices[r.value], e) != {}
  {
    if owner.Some? || order == [] then owner
    else if Stale(devices[order[0]], e) != {} then Some(order[0])
    else
      assert forall id | id in order :: id == order[0] || id in order[1..];
      Winner(devices, owner, order[1..], e)
  }

  lemma {:induction false} WinnerOfPrefix(devices: Devices, owner: Option<nat>, order: seq<nat>, e: Entry)
    requires order != [] && forall id | id in order :: id in devices
    ensures var last := order[|order| - 1];
            var sofar := Winner(devices, owner, order[..|order| - 1], e);
            Winner(devices, owner, order, e)
            == if sofar.None? && Stale(devices[last], e) != {} then Some(last) else sofar
  {
    hide Stale;
    if owner.None? && |order| > 1 && Stale(devices[order[0]], e) == {} {
      assert order[1..][..|order| - 2] == order[..|order| - 1][1..];
      WinnerOfPrefix(devices, owner, order[1..], e);
    }
  }

  /** A row after the rewrite, said from what it was: None when it is gone. */
  function Becomes(d: Device, id: nat, winner: Option<nat>, e: Entry): Option<Device> {
    if Stale(d, e) == {} then Some(d)
    else if winner == Some(id) then Some(Renamed(d, e))
    else if d.entries - {e.id} == {} then None
    else Some(d.(entries := d.entries - {e.id}))
  }

  ghost predicate Outcome(devices: Devices, r: Devices, order: seq<nat>, winner: Option<nat>, e: Entry) {
    forall id ::
      Row(r, id) == if id in order && id in devices then Becomes(devices[id], id, winner, e) else Row(devices, id)
  }

  function Row(devices: Devices, id: nat): Option<Device> {
    if id in devices then Some(devices[id]) else None
  }

  /** The own identifier is on the owner, if there is one, and otherwise on no device at all. */
  ghost predicate OwnFree(devices: Devices, owner: Option<nat>, e: Entry) {
    forall id | id in devices && Own(e) in devices[id].identifiers :: owner == Some(id)
  }

  lemma NoCollision(devices: Devices, w: Walk, order: seq<nat>, id: nat, e: Entry)
    requires Unique(devices) && Outcome(devices, w.devices, order, w.owner, e)
    requires id in devices && OwnFree(devices, Some(id), e)
    requires w.owner.None? || w.owner == Some(id)
    requires id in w.devices && w.devices[id] == devices[id]
    ensures !Collides(w.devices, id, Renamed(devices[id], e).identifiers)
  {
    forall j | j in w.devices && j != id
      ensures w.devices[j].identifiers * Renamed(devices[id], e).identifiers == {}
    {
      assert Row(w.devices, j) == Some(w.devices[j]);
      assert w.devices[j].identifiers == devices[j].identifiers;
      assert devices[j].identifiers !! devices[id].identifiers;
    }
  }

  /** With the own identifier on no other device, the walk does not fail and every row becomes what it should. */
  lemma {:induction false} WalkOutcome(devices: Devices, owner: Option<nat>, order: seq<nat>, e: Entry)
    requires Rows(order, devices.Keys) && Unique(devices) && OwnFree(devices, owner, e)
    requires owner.Some? ==> owner.value in devices
    ensures var w := Walked(devices, owner, order, e);
            !w.failed && w.owner == Winner(devices, owner, order, e) && Outcome(devices, w.devices, order, w.owner, e)
  {
    if order != [] {
      var n := |order| - 1;
      RowsUpTo(order, devices.Keys, n);
      WalkOutcome(devices, owner, order[..n], e);
      WinnerOfPrefix(devices, owner, order, e);
      var w, id := Walked(devices, owner, order[..n], e), order[n];
      assert forall k :: k in order <==> k == id || k in order[..n];
      if Stale(devices[id], e) != {} && (w.owner.None? || w.owner == Some(id)) {
        NoCollision(devices, w, order[..n], id, e);
      }
      VisitOutcome(devices, w, order, n, e);
    }
  }

  lemma VisitOutcome(devices: Devices, w: Walk, order: seq<nat>, n: nat, e: Entry)
    requires Rows(order, devices.Keys) && n < |order| && |order| == n + 1
    requires !w.failed && Outcome(devices, w.devices, order[..n], w.owner, e)
    requires order[n] in w.devices && w.devices[order[n]] == devices[order[n]]
    requires w.owner.None? ==> forall id | id in order[..n] :: Stale(devices[id], e) == {}
    requires Stale(devices[order[n]], e) != {} && (w.owner.None? || w.owner == Some(order[n])) ==>
               !Collides(w.devices, order[n], Renamed(devices[order[n]], e).identifiers)
    ensures var r := Visit(w, order[n], e);
            && !r.failed && Outcome(devices, r.devices, order, r.owner, e)
            && r.owner == if w.owner.None? && Stale(devices[order[n]], e) != {} then Some(order[n]) else w.owner
  {
    var r, id := Visit(w, order[n], e), order[n];
    assert forall k :: k in order <==> k == id || k in order[..n];
    forall k
      ensures Row(r.devices, k)
              == if k in order && k in devices then Becomes(devices[k], k, r.owner, e) else Row(devices, k)
    {
      assert Row(w.devices, k)
             == if k in order[..n] && k in devices then Becomes(devices[k], k, w.owner, e) else Row(devices, k);
    }
  }

  lemma VisitIsRefused(devices: Devices, id: nat, e: Entry, foreign: nat)
    requires id in devices && foreign in devices && foreign != id && Own(e) in devices[foreign].identifiers
    ensures Visit(Walk(devices, None, false), id, e) == Walk(devices, None, Stale(devices[id], e) != {})
  {
    assert Own(e) in devices[foreign].identifiers * Renamed(devices[id], e).identifiers;
  }

  /** With the own identifier on another entry's device, the walk fails at the first stale row and changes nothing. */
  lemma {:induction false} WalkFails(devices: Devices, order: seq<nat>, e: Entry, foreign: nat)
    requires Rows(order, devices.Keys) && foreign in devices && foreign !in order
    requires Own(e) in devices[foreign].identifiers
    ensures var w := Walked(devices, None, order, e);
            w.devices == devices && w.owner == None && (w.failed <==> Winner(devices, None, order, e).Some?)
  {
    if order != [] {
      var n := |order| - 1;
      RowsUpTo(order, devices.Keys, n);
      WalkFails(devices, order[..n], e, foreign);
      WinnerOfPrefix(devices, None, order, e);
      hide Winner, Stale, Collides, Renamed, Rows;
      VisitIsRefused(devices, order[n], e, foreign);
    }
  }

  lemma {:induction false} NothingStale(devices: Devices, owner: Option<nat>, order: seq<nat>, e: Entry)
    requires Rows(order, devices.Keys) && forall id | id in order :: Stale(devices[id], e) == {}
    ensures Walked(devices, owner, order, e) == Walk(devices, owner, false)
  {
    if order != [] {
      RowsUpTo(order, devices.Keys, |order| - 1);
      NothingStale(devices, owner, order[..|order| - 1], e);
    }
  }

  /** The identifiers other integrations put on a device. */
  function Others(d: Device): set<Identifier> {
    set i | i in d.identifiers && i.0 != DOMAIN
  }

  ghost predicate Used(devices: Devices, e: Entry) {
    exists id :: id in devices && e.id in devices[id].entries
        && (Own(e) in devices[id].identifiers || Stale(devices[id], e) != {})
  }

  /** A device of another entry has this entry's identifier. */
  ghost predicate Claimed(devices: Devices, e: Entry) {
    exists id :: id in devices && e.id !in devices[id].entries && Own(e) in devices[id].identifiers
  }

  ghost predicate NeedsRewrite(devices: Devices, e: Entry) {
    exists id :: id in devices && e.id in devices[id].entries && Stale(devices[id], e) != {}
  }

  /** The walk is refused exactly when a device of another entry has the identifier a stale row would get. */
  lemma WalkFailsIff(devices: Devices, order: seq<nat>, e: Entry)
    requires Unique(devices) && Lists(order, devices, e)
    ensures var w := Walked(devices, Owner(devices, order, e), order, e);
            && (w.failed <==> NeedsRewrite(devices, e) && Claimed(devices, e))
            && (w.failed ==> w.devices == devices)
            && (!w.failed && NeedsRewrite(devices, e) ==> OwnFree(devices, Owner(devices, order, e), e))
  {
    var owner := Owner(devices, order, e);
    var winner := Winner(devices, owner, order, e);
    OneHolder(devices, Own(e));
    if Claimed(devices, e) {
      var foreign :| foreign in devices && e.id !in devices[foreign].entries && Own(e) in devices[foreign].identifiers;
      assert owner.None?;
      WalkFails(devices, order, e, foreign);
    } else {
      assert OwnFree(devices, owner, e);
      WalkOutcome(devices, owner, order, e);
    }
  }

  /** Such rows, all distinct: the one of another entry has this entry's identifier, and the stale one cannot get it. */
  lemma WalkIsRefused() returns (devices: Devices, e: Entry)
    ensures Unique(devices) && Lists([0], devices, e) && Owner(devices, [0], e) == None
    ensures Walked(devices, None, [0], e) == Walk(devices, None, true)
  {
    devices, e := map[0 := Device({(DOMAIN, "aa")}, {"E"}), 1 := Device({(DOMAIN, "E")}, {"F"})], Entry("E", "aa");
    assert Own(e) in devices[1].identifiers && Own(e) !in devices[0].identifiers;
    assert (DOMAIN, "aa") in Stale(devices[0], e);
    assert NeedsRewrite(devices, e) && Claimed(devices, e);
    WalkFailsIff(devices, [0], e);
    WalkFails(devices, [0], e, 1);
  }

  lemma OneHolder(devices: Devices, i: Identifier)
    requires Unique(devices)
    ensures forall j, k | j in devices && k in devices && i in devices[j].identifiers && i in devices[k].identifiers ::
              j == k
  {
  }

  /** One row of the outcome against the row it was. */
  ghost predicate RowIsMigrated(devices: Devices, r: Devices, winner: Option<nat>, e: Entry, id: nat) {
    && (id in r ==>
          && id in devices && Others(r[id]) == Others(devices[id])
          && r[id].entries - {e.id} == devices[id].entries - {e.id}
          && (e.id in r[id].entries ==> e.id in devices[id].entries && Stale(r[id], e) == {})
          && r[id].identifiers <= devices[id].identifiers + (if winner == Some(id) then {Own(e)} else {}))
    && (id in devices && id !in r ==> devices[id].entries == {e.id})
    && (id in devices && e.id !in devices[id].entries ==> id in r && r[id] == devices[id])
    && (id in devices && winner == Some(id) && e.id in devices[id].entries ==>
          && id in r && r[id].entries == devices[id].entries
          && (Own(e) in devices[id].identifiers || Stale(devices[id], e) != {} ==> Own(e) in r[id].identifiers))
  }

  lemma OutcomeRow(devices: Devices, r: Devices, order: seq<nat>, winner: Option<nat>, e: Entry, id: nat)
    requires Outcome(devices, r, order, winner, e) && Lists(order, devices, e) && Apart(e)
    ensures RowIsMigrated(devices, r, winner, e, id)
  {
  }

  lemma StaysUnique(devices: Devices, r: Devices, winner: Option<nat>, e: Entry)
    requires Unique(devices) && forall id :: RowIsMigrated(devices, r, winner, e, id)
    requires OwnFree(devices, winner, e)
    ensures Unique(r)
  {
    forall j, k | j in r && k in r && j != k
      ensures r[j].identifiers !! r[k].identifiers
    {
      assert RowIsMigrated(devices, r, winner, e, j) && RowIsMigrated(devices, r, winner, e, k);
      assert devices[j].identifiers !! devices[k].identifiers;
    }
  }

  /**
    The device half: no device of the entry keeps the address; identifiers stay unique; if any row was ours, by
    either key, exactly one device of the entry has its identifier, and it is the row that had it if one did; what
    other integrations put on a device stays on it, and so do the other entries; a row goes only when no other entry
    used it; other entries' rows stay.
   */
  ghost predicate Migrated(devices: Devices, r: Devices, e: Entry) {
    && Unique(r) && r.Keys <= devices.Keys && !NeedsRewrite(r, e)
    && (Used(devices, e) ==> exists id :: id in r && e.id in r[id].entries && Own(e) in r[id].identifiers)
    && (forall id | id in devices && e.id in devices[id].entries && Own(e) in devices[id].identifiers ::
          id in r && Own(e) in r[id].identifiers)
    && (forall id | id in r ::
          Others(r[id]) == Others(devices[id])
          && r[id].entries - {e.id} == devices[id].entries - {e.id})
    && (forall id | id in devices && id !in r :: devices[id].entries == {e.id})
    && (forall id | id in devices && e.id !in devices[id].entries :: id in r && r[id] == devices[id])
  }

  lemma RowsAreMigrated(devices: Devices, r: Devices, winner: nat, e: Entry)
    requires Unique(devices) && OwnFree(devices, Some(winner), e)
    requires winner in devices && e.id in devices[winner].entries
    requires Own(e) in devices[winner].identifiers || Stale(devices[winner], e) != {}
    requires forall id :: RowIsMigrated(devices, r, Some(winner), e, id)
    ensures Migrated(devices, r, e)
  {
    StaysUnique(devices, r, Some(winner), e);
    assert RowIsMigrated(devices, r, Some(winner), e, winner);
    hide Stale, Others, Unique;
    assert forall id | id in r || id in devices :: RowIsMigrated(devices, r, Some(winner), e, id);
  }

  lemma DevicesAreMigrated(devices: Devices, order: seq<nat>, e: Entry)
    requires Unique(devices) && Lists(order, devices, e) && Apart(e)
    requires !Walked(devices, Owner(devices, order, e), order, e).failed
    ensures Migrated(devices, Walked(devices, Owner(devices, order, e), order, e).devices, e)
  {
    var owner := Owner(devices, order, e);
    var r := Walked(devices, owner, order, e).devices;
    WalkFailsIff(devices, order, e);
    if NeedsRewrite(devices, e) {
      var winner := Winner(devices, owner, order, e);
      WalkOutcome(devices, owner, order, e);
      forall id ensures RowIsMigrated(devices, r, winner, e, id) {
        OutcomeRow(devices, r, order, winner, e, id);
      }
      RowsAreMigrated(devices, r, winner.value, e);
    } else {
      NothingStale(devices, owner, order, e);
      OneHolder(devices, Own(e));
    }
  }

  /** A device of the entry has the lock's address under the integration's domain, in whatever spelling. */
  ghost predicate HasAddress(devices: Devices, e: Entry, id: nat) {
    && id in devices && e.id in devices[id].entries
    && exists s :: ("onesti_lock", s) in devices[id].identifiers && Spelled(s, e.ieee)
  }

  ghost predicate HasEntryId(devices: Devices, e: Entry, id: nat) {
    id in devices && e.id in devices[id].entries && ("onesti_lock", e.id) in devices[id].identifiers
  }

  lemma HasAddressIff(devices: Devices, e: Entry, id: nat)
    requires id in devices && e.id in devices[id].entries
    ensures HasAddress(devices, e, id) <==> Stale(devices[id], e) != {}
  {
    forall s ensures Lower(s) == Lower(e.ieee) <==> Spelled(s, e.ieee) {
      LowerIgnoresCase(s, e.ieee);
    }
    if Stale(devices[id], e) != {} {
      var i :| i in Stale(devices[id], e);
      assert i == ("onesti_lock", i.1);
    }
    hide Lower, Spelled;
    if HasAddress(devices, e, id) {
      var s :| ("onesti_lock", s) in devices[id].identifiers && Spelled(s, e.ieee);
      assert ("onesti_lock", s) in Stale(devices[id], e);
    }
  }

  /**
    Unless it is refused, the rewrite leaves no device of the entry with the address; and if one had it, or had the
    entry's id already, one has the entry's id now.
   */
  lemma AddressIsGone(devices: Devices, order: seq<nat>, e: Entry)
    requires Unique(devices) && Lists(order, devices, e) && Apart(e)
    requires !Walked(devices, Owner(devices, order, e), order, e).failed
    ensures var r := Walked(devices, Owner(devices, order, e), order, e).devices;
            && (forall id :: !HasAddress(r, e, id))
            && ((exists id :: HasAddress(devices, e, id) || HasEntryId(devices, e, id)) ==>
                  exists id :: HasEntryId(r, e, id))
  {
    DevicesAreMigrated(devices, order, e);
    var r := Walked(devices, Owner(devices, order, e), order, e).devices;
    forall id ensures !HasAddress(r, e, id) {
      if id in r && e.id in r[id].entries {
        HasAddressIff(r, e, id);
      }
    }
    if id :| HasAddress(devices, e, id) || HasEntryId(devices, e, id) {
      HasAddressIff(devices, e, id);
      hide Walked, Owner, Stale;
      assert Used(devices, e);
      var j :| j in r && e.id in r[j].entries && Own(e) in r[j].identifiers;
      assert HasEntryId(r, e, j);
    }
  }

  /** A second rewrite, right after or at any later setup, finds nothing to do. */
  lemma DevicesSettle(devices: Devices, order: seq<nat>, again: seq<nat>, e: Entry)
    requires Unique(devices) && Lists(order, devices, e) && Apart(e)
    requires var w := Walked(devices, Owner(devices, order, e), order, e);
             !w.failed && Lists(again, w.devices, e)
    ensures var r := Walked(devices, Owner(devices, order, e), order, e).devices;
            Walked(r, Owner(r, again, e), again, e) == Walk(r, Owner(r, again, e), false)
  {
    DevicesAreMigrated(devices, order, e);
    var r := Walked(devices, Owner(devices, order, e), order, e).devices;
    NothingStale(r, Owner(r, again, e), again, e);
  }

  /** No two entities of one domain and platform share a unique id. */
  ghost predicate UniqueKeys(entities: Entities) {
    forall j, k | j in entities && k in entities
      && HasKey(entities[j], entities[k].domain, entities[k].platform, entities[k].uniqueId) :: j == k
  }

  ghost predicate OfEntry(entities: Entities, k: string, e: Entry) {
    k in entities && entities[k].entry == Some(e.id)
  }

  ghost predicate ListsEntities(order: seq<string>, entities: Entities, e: Entry) {
    Rows(order, entities.Keys) && forall k :: k in order <==> OfEntry(entities, k, e)
  }

  /** The unique id begins with the lock's address, in whatever spelling, and a dash. */
  predicate BeginsWithAddress(uniqueId: string, e: Entry) {
    && |uniqueId| > |e.ieee| && uniqueId[|e.ieee|] == '-'
    && Spelled(uniqueId[..|e.ieee|], e.ieee)
  }

  /** The address in front of a unique id becomes the entry's id, and what follows stays as it was written. */
  lemma TargetIs(uniqueId: string, e: Entry)
    ensures Keyed(uniqueId, e) <==> BeginsWithAddress(uniqueId, e)
    ensures Target(uniqueId, e)
            == if BeginsWithAddress(uniqueId, e) then e.id + uniqueId[|e.ieee|..] else uniqueId
  {
    var n := |e.ieee|;
    if |uniqueId| > n {
      LowerIgnoresCase(uniqueId[..n], e.ieee);
      assert Lower(uniqueId)[..n] == Lower(uniqueId[..n]);
      assert Prefix(e.ieee)[..n] == Lower(e.ieee) && Prefix(e.ieee)[n] == '-';
      assert Lower(uniqueId)[n] == LowerChar(uniqueId[n]);
      if uniqueId[n] == '-' {
        assert uniqueId[n..] == "-" + uniqueId[n + 1..];
        assert e.id + "-" + uniqueId[n + 1..] == e.id + uniqueId[n..];
      }
      if Keyed(uniqueId, e) {
        assert Lower(uniqueId)[..n + 1] == Prefix(e.ieee);
        assert Lower(uniqueId)[..n + 1][..n] == Lower(uniqueId)[..n];
        assert Lower(uniqueId)[..n + 1][n] == '-';
      }
      if BeginsWithAddress(uniqueId, e) {
        assert Lower(uniqueId)[..n + 1] == Prefix(e.ieee);
      }
    }
  }

  lemma TargetIsNotKeyed(uniqueId: string, e: Entry)
    requires Apart(e)
    ensures !Keyed(Target(uniqueId, e), e)
  {
  }

  lemma LowerTwice(s: string)
    ensures Lower(Lower(s)) == Lower(s) && Lower(Lower(s) + "-") == Lower(s) + "-"
  {
  }

  /** The rewrite takes every address-keyed unique id out of the way exactly when the two keys cannot be confused. */
  lemma RewriteIsSafeIff(e: Entry)
    ensures Apart(e) <==> forall uniqueId :: !Keyed(Target(uniqueId, e), e)
  {
    var p, q := Prefix(e.ieee), Prefix(e.id);
    LowerTwice(e.ieee);
    if Apart(e) {
      forall uniqueId ensures !Keyed(Target(uniqueId, e), e) {
        TargetIsNotKeyed(uniqueId, e);
      }
    } else {
      StaysKeyed(e, if p <= q then "" else p[|q|..]);
    }
  }

  /** An address-keyed id that is still one after the rewrite, when one of the two keys begins with the other. */
  lemma StaysKeyed(e: Entry, suffix: string)
    requires var p, q := Prefix(e.ieee), Prefix(e.id);
             if p <= q then suffix == "" else q <= p && suffix == p[|q|..]
    ensures Keyed(Target(Prefix(e.ieee) + suffix, e), e)
  {
    var p, q := Prefix(e.ieee), Prefix(e.id);
    LowerTwice(e.ieee);
    KeyedSum(e, suffix);
    if !(p <= q) {
      FixedSuffix(p, |q|);
    }
    hide Lower, Target;
    assert p <= q + Lower(suffix);
  }

  lemma KeyedSum(e: Entry, suffix: string)
    ensures Target(Prefix(e.ieee) + suffix, e) == e.id + "-" + suffix
    ensures Lower(e.id + "-" + suffix) == Prefix(e.id) + Lower(suffix)
  {
    LowerTwice(e.ieee);
    LowerSum(Prefix(e.ieee), suffix);
    LowerSum(e.id, "-");
    LowerSum(e.id + "-", suffix);
    assert (Prefix(e.ieee) + suffix)[|Prefix(e.ieee)|..] == suffix;
    assert Lower("-") == "-";
  }

  lemma FixedSuffix(s: string, n: nat)
    requires Lower(s) == s && n <= |s|
    ensures Lower(s[n..]) == s[n..]
  {
  }

  lemma LowerSum(a: string, b: string)
    ensures Lower(a + b) == Lower(a) + Lower(b)
  {
  }

  function Retargeted(x: Entity, e: Entry): Entity {
    x.(uniqueId := Target(x.uniqueId, e))
  }

  /** The rows of order are done: each is retargeted or gone, its key is held, and no two rows share a key. */
  ghost predicate Progress(entities: Entities, r: Entities, order: seq<string>, e: Entry) {
    && UniqueKeys(r) && r.Keys <= entities.Keys
    && (forall k | k in r :: r[k] == if k in order then Retargeted(entities[k], e) else entities[k])
    && (forall k | k in entities && k !in order :: k in r)
    && (forall k | k in entities && k in order ::
          (k in r || Keyed(entities[k].uniqueId, e))
          && Held(r, entities[k].domain, entities[k].platform, Target(entities[k].uniqueId, e)))
  }

  /** A key that no rewrite will take away stays held. */
  lemma HeldStays(r: Entities, k: string, e: Entry, domain: string, platform: string, uniqueId: string)
    requires k in r && Apart(e) && !Keyed(uniqueId, e) && Held(r, domain, platform, uniqueId)
    ensures Held(Rewrite(r, k, e), domain, platform, uniqueId)
  {
    var j :| j in r && HasKey(r[j], domain, platform, uniqueId);
    assert j in Rewrite(r, k, e) && Rewrite(r, k, e)[j] == r[j];
  }

  lemma RewriteProgress(entities: Entities, r: Entities, order: seq<string>, n: nat, e: Entry)
    requires Rows(order, entities.Keys) && |order| == n + 1 && Apart(e)
    requires Progress(entities, r, order[..n], e)
    requires order[n] in r && r[order[n]] == entities[order[n]]
    ensures Progress(entities, Rewrite(r, order[n], e), order, e)
  {
    var k, s := order[n], Rewrite(r, order[n], e);
    var x := r[k];
    assert forall j :: j in order <==> j == k || j in order[..n];
    TargetIsNotKeyed(x.uniqueId, e);
    assert UniqueKeys(s) by {
      if Keyed(x.uniqueId, e) && !Held(r, x.domain, x.platform, Target(x.uniqueId, e)) {
        forall j | j in r ensures !HasKey(r[j], x.domain, x.platform, Target(x.uniqueId, e)) {
        }
      }
    }
    assert Held(s, x.domain, x.platform, Target(x.uniqueId, e)) by {
      if Keyed(x.uniqueId, e) && Held(r, x.domain, x.platform, Target(x.uniqueId, e)) {
        HeldStays(r, k, e, x.domain, x.platform, Target(x.uniqueId, e));
      } else {
        assert HasKey(s[k], x.domain, x.platform, Target(x.uniqueId, e));
      }
    }
    forall j | j in entities && j in order[..n]
      ensures Held(s, entities[j].domain, entities[j].platform, Target(entities[j].uniqueId, e))
    {
      TargetIsNotKeyed(entities[j].uniqueId, e);
      HeldStays(r, k, e, entities[j].domain, entities[j].platform, Target(entities[j].uniqueId, e));
    }
  }

  lemma {:induction false} RewrittenProgress(entities: Entities, order: seq<string>, e: Entry)
    requires Rows(order, entities.Keys) && UniqueKeys(entities) && Apart(e)
    ensures Progress(entities, Rewritten(entities, order, e), order, e)
  {
    if order != [] {
      var n := |order| - 1;
      RowsUpTo(order, entities.Keys, n);
      RewrittenProgress(entities, order[..n], e);
      RewrittenNext(entities, order, n, e);
      assert order[..n + 1] == order;
      RewriteProgress(entities, Rewritten(entities, order[..n], e), order, n, e);
    }
  }

  /** The entry has an entity under this key. */
  ghost predicate HeldBy(entities: Entities, e: Entry, domain: string, platform: string, uniqueId: string) {
    exists k :: OfEntry(entities, k, e) && HasKey(entities[k], domain, platform, uniqueId)
  }

  /** The entry had an entity that belongs under this key, whichever of the two keys it had. */
  ghost predicate BelongsTo(entities: Entities, e: Entry, domain: string, platform: string, uniqueId: string) {
    exists k :: OfEntry(entities, k, e) && HasKey(Retargeted(entities[k], e), domain, platform, uniqueId)
  }

  /** Another entry's entity stands under this key. */
  ghost predicate HeldByOthers(entities: Entities, e: Entry, domain: string, platform: string, uniqueId: string) {
    exists k :: k in entities && !OfEntry(entities, k, e) && HasKey(entities[k], domain, platform, uniqueId)
  }

  /**
    The entity half: no entity of the entry keeps the address; keys stay unique; a row that stays keeps everything
    but its unique id, and other entries' rows keep all of it; and the entry has an entity under a key exactly when
    it had one that belongs there and no other entry's entity stands there, so every suffix is kept, once.
   */
  lemma EntitiesAreMigrated(entities: Entities, order: seq<string>, e: Entry, domain: string, platform: string,
        uniqueId: string)
    requires UniqueKeys(entities) && ListsEntities(order, entities, e) && Apart(e)
    ensures var r := Rewritten(entities, order, e);
            && UniqueKeys(r) && r.Keys <= entities.Keys
            && (forall k | OfEntry(r, k, e) :: !Keyed(r[k].uniqueId, e))
            && (forall k | k in r :: r[k] == if OfEntry(entities, k, e) then Retargeted(entities[k], e)
                else entities[k])
            && (forall k | k in entities && k !in r :: OfEntry(entities, k, e) && Keyed(entities[k].uniqueId, e))
            && (HeldBy(r, e, domain, platform, uniqueId) <==>
                  BelongsTo(entities, e, domain, platform, uniqueId)
                      && !HeldByOthers(entities, e, domain, platform, uniqueId))
  {
    var r := Rewritten(entities, order, e);
    RewrittenProgress(entities, order, e);
    hide Keyed, Target, Rows, Rewritten;
    forall k | OfEntry(r, k, e)
      ensures !Keyed(r[k].uniqueId, e)
    {
      TargetIsNotKeyed(entities[k].uniqueId, e);
    }
    if BelongsTo(entities, e, domain, platform, uniqueId) && !HeldByOthers(entities, e, domain, platform, uniqueId) {
      var k :| OfEntry(entities, k, e) && HasKey(Retargeted(entities[k], e), domain, platform, uniqueId);
      assert Held(r, domain, platform, uniqueId);
      var j :| j in r && HasKey(r[j], domain, platform, uniqueId);
      assert OfEntry(r, j, e);
    }
    if HeldBy(r, e, domain, platform, uniqueId) {
      var k :| OfEntry(r, k, e) && HasKey(r[k], domain, platform, uniqueId);
      assert OfEntry(entities, k, e);
      assert forall j | j in entities && !OfEntry(entities, j, e) :: j in r && r[j] == entities[j];
    }
  }

  lemma {:induction false} NothingKeyed(entities: Entities, order: seq<string>, e: Entry)
    requires Rows(order, entities.Keys) && forall k | k in order :: !Keyed(entities[k].uniqueId, e)
    ensures Rewritten(entities, order, e) == entities
  {
    if order != [] {
      RowsUpTo(order, entities.Keys, |order| - 1);
      NothingKeyed(entities, order[..|order| - 1], e);
    }
  }

  lemma EntitiesSettle(entities: Entities, order: seq<string>, again: seq<string>, e: Entry)
    requires UniqueKeys(entities) && ListsEntities(order, entities, e) && Apart(e)
    requires ListsEntities(again, Rewritten(entities, order, e), e)
    ensures var r := Rewritten(entities, order, e); Rewritten(r, again, e) == r
  {
    EntitiesAreMigrated(entities, order, e, "", "", "");
    NothingKeyed(Rewritten(entities, order, e), again, e);
  }
}
