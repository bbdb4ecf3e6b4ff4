/**
 * The helper functions of the bot: entity classification, inventory and bank
 * scans, the cooldown gate, the list of entities attacking us and the
 * monster spawn points of the game maps.
 */
module Functions {
  import opened Wrappers
  import opened Game

  /** The inventory scans look at the first 42 slots. */
  const InventorySize: nat := 42

  // ---------------------------------------------------------------------
  // Entity classification

  predicate IsNPC(e: Entity) { e.npc }

  predicate IsMonster(e: Entity) { e.kind == Monster }

  predicate IsPlayer(e: Entity) { e.kind == Character && !IsNPC(e) }

  // ---------------------------------------------------------------------
  // Inventory scans

  /** Slot `i` holds an item; reading past the end of the array yields nothing. */
  predicate Occupied(inv: seq<Option<Item>>, i: int)
  {
    0 <= i < |inv| && inv[i].Some?
  }

  /** Which items a scan keeps. */
  datatype ItemFilter = AnyItem | Named(name: string) | NamedWithLevel(name: string, level: int)

  predicate Keeps(f: ItemFilter, it: Item)
  {
    match f
    case AnyItem => true
    case Named(n) => it.name == n
    case NamedWithLevel(n, l) => it.name == n && it.level == Some(l)
  }

  /** The entries of slots `i`..41 whose item `f` keeps, in ascending slot order. */
  function Scan(inv: seq<Option<Item>>, f: ItemFilter, i: nat): seq<IndexedItem>
    decreases InventorySize - i
  {
    if i >= InventorySize then []
    else if Occupied(inv, i) && Keeps(f, inv[i].value) then [IndexedItem(inv[i].value, i)] + Scan(inv, f, i + 1)
    else Scan(inv, f, i + 1)
  }

  /**
   * `r` lists exactly the occupied slots in `lo`..41 whose item `f` keeps,
   * each tagged with its own index, in strictly ascending index order.
   */
  ghost predicate ExactlyMatching(inv: seq<Option<Item>>, f: ItemFilter, lo: nat, r: seq<IndexedItem>)
  {
    && (forall e :: e in r ==>
          && lo <= e.index < InventorySize
          && Occupied(inv, e.index)
          && e.item == inv[e.index].value
          && Keeps(f, e.item))
    && (forall k, l :: 0 <= k < l < |r| ==> r[k].index < r[l].index)
    && (forall j :: lo <= j < InventorySize && Occupied(inv, j) && Keeps(f, inv[j].value) ==>
          IndexedItem(inv[j].value, j) in r)
  }

  lemma {:induction false} ScanSound(inv: seq<Option<Item>>, f: ItemFilter, i: nat)
    ensures forall e :: e in Scan(inv, f, i) ==>
      && i <= e.index < InventorySize
      && Occupied(inv, e.index)
      && e.item == inv[e.index].value
      && Keeps(f, e.item)
    decreases InventorySize - i
  {
    if i < InventorySize {
      ScanSound(inv, f, i + 1);
    }
  }

  lemma {:induction false} ScanAscending(inv: seq<Option<Item>>, f: ItemFilter, i: nat)
    ensures forall k, l :: 0 <= k < l < |Scan(inv, f, i)| ==> Scan(inv, f, i)[k].index < Scan(inv, f, i)[l].index
    decreases InventorySize - i
  {
    if i < InventorySize {
      ScanAscending(inv, f, i + 1);
      ScanSound(inv, f, i + 1);
      var rest := Scan(inv, f, i + 1);
      if Occupied(inv, i) && Keeps(f, inv[i].value) {
        var r := [IndexedItem(inv[i].value, i)] + rest;
        forall k, l | 0 <= k < l < |r| ensures r[k].index < r[l].index {
          assert r[l] == rest[l - 1];
          assert r[l] in rest;
          if k > 0 {
            assert r[k] == rest[k - 1];
          }
        }
      }
    }
  }

  lemma {:induction false} ScanComplete(inv: seq<Option<Item>>, f: ItemFilter, i: nat)
    ensures forall j :: i <= j < InventorySize && Occupied(inv, j) && Keeps(f, inv[j].value) ==>
      IndexedItem(inv[j].value, j) in Scan(inv, f, i)
    decreases InventorySize - i
  {
    if i < InventorySize {
      ScanComplete(inv, f, i + 1);
    }
  }

  /** One step of a scan from slot `i`. */
  lemma ScanStep(inv: seq<Option<Item>>, f: ItemFilter, i: nat)
    requires i < InventorySize
    ensures Scan(inv, f, i) ==
      (if Occupied(inv, i) && Keeps(f, inv[i].value) then [IndexedItem(inv[i].value, i)] else []) + Scan(inv, f, i + 1)
  {
  }

  lemma ScanExact(inv: seq<Option<Item>>, f: ItemFilter, i: nat)
    ensures ExactlyMatching(inv, f, i, Scan(inv, f, i))
  {
    ScanSound(inv, f, i);
    ScanAscending(inv, f, i);
    ScanComplete(inv, f, i);
  }

  /** The entries collected after slot `i`: one more when `f` keeps slot `i`. */
  function CollectNext(inv: seq<Option<Item>>, f: ItemFilter, i: nat, items: seq<IndexedItem>): seq<IndexedItem>
  {
    if Occupied(inv, i) && Keeps(f, inv[i].value) then items + [IndexedItem(inv[i].value, i)] else items
  }

  lemma CollectStep(inv: seq<Option<Item>>, f: ItemFilter, i: nat, items: seq<IndexedItem>)
    requires i < InventorySize
    ensures items + Scan(inv, f, i) == CollectNext(inv, f, i, items) + Scan(inv, f, i + 1)
  {
    if Occupied(inv, i) && Keeps(f, inv[i].value) {
      var e := IndexedItem(inv[i].value, i);
      assert items + Scan(inv, f, i) == (items + [e]) + Scan(inv, f, i + 1);
    } else {
      assert [] + Scan(inv, f, i + 1) == Scan(inv, f, i + 1);
    }
  }

  /** The loop shared by the inventory scans: collect the entries `f` keeps. */
  method Collect(inv: seq<Option<Item>>, f: ItemFilter) returns (items: seq<IndexedItem>)
    ensures items == Scan(inv, f, 0)
  {
    items := [];
    var i := 0;
    ghost var all := Scan(inv, f, 0);
    while i < InventorySize
      invariant 0 <= i <= InventorySize
      invariant items + Scan(inv, f, i) == all
    {
      CollectStep(inv, f, i, items);
      if Occupied(inv, i) && Keeps(f, inv[i].value) {
        items := items + [IndexedItem(inv[i].value, i)];
      }
      i := i + 1;
    }
    assert items + [] == items;
  }

  /** The inventory with its empty slots removed, each entry tagged with its slot. */
  method GetInventory(inv: seq<Option<Item>>) returns (items: seq<IndexedItem>)
    ensures items == Scan(inv, AnyItem, 0)
    ensures ExactlyMatching(inv, AnyItem, 0, items)
  {
    items := Collect(inv, AnyItem);
    ScanExact(inv, AnyItem, 0);
  }

  /** The first inventory entry with the given name, if any. */
  method FindItem(inv: seq<Option<Item>>, name: string) returns (r: Option<IndexedItem>)
    ensures r.None? <==> Scan(inv, Named(name), 0) == []
    ensures r.Some? ==> r.value == Scan(inv, Named(name), 0)[0]
    ensures r.Some? ==>
      && r.value.index < InventorySize
      && Occupied(inv, r.value.index)
      && r.value.item == inv[r.value.index].value
      && r.value.item.name == name
      && forall j :: 0 <= j < r.value.index && Occupied(inv, j) ==> inv[j].value.name != name
  {
    var i := 0;
    ghost var all := Scan(inv, Named(name), 0);
    while i < InventorySize
      invariant 0 <= i <= InventorySize
      invariant Scan(inv, Named(name), i) == all
      invariant forall j :: 0 <= j < i && Occupied(inv, j) ==> inv[j].value.name != name
    {
      ScanStep(inv, Named(name), i);
      if Occupied(inv, i) && inv[i].value.name == name {
        return Some(IndexedItem(inv[i].value, i));
      }
      i := i + 1;
    }
    return None;
  }

  /** All inventory entries with the given name, in slot order. */
  method FindItems(inv: seq<Option<Item>>, name: string) returns (items: seq<IndexedItem>)
    ensures items == Scan(inv, Named(name), 0)
    ensures ExactlyMatching(inv, Named(name), 0, items)
  {
    items := Collect(inv, Named(name));
    ScanExact(inv, Named(name), 0);
  }

  /** All inventory entries with the given name and level, in slot order. */
  method FindItemsWithLevel(inv: seq<Option<Item>>, name: string, level: int) returns (items: seq<IndexedItem>)
    ensures items == Scan(inv, NamedWithLevel(name, level), 0)
    ensures ExactlyMatching(inv, NamedWithLevel(name, level), 0, items)
  {
    items := Collect(inv, NamedWithLevel(name, level));
    ScanExact(inv, NamedWithLevel(name, level), 0);
  }

  /** The entries of `es` whose item has the given level, in order. */
  function WithLevel(es: seq<IndexedItem>, level: int): seq<IndexedItem>
  {
    if es == [] then []
    else (if es[0].item.level == Some(level) then [es[0]] else []) + WithLevel(es[1..], level)
  }

  /** findItemsWithLevel keeps exactly the findItems entries whose level matches. */
  lemma {:induction false} WithLevelFiltersFindItems(inv: seq<Option<Item>>, name: string, level: int, i: nat)
    ensures Scan(inv, NamedWithLevel(name, level), i) == WithLevel(Scan(inv, Named(name), i), level)
    decreases InventorySize - i
  {
    if i < InventorySize {
      WithLevelFiltersFindItems(inv, name, level, i + 1);
      if Occupied(inv, i) && inv[i].value.name == name {
        var e := IndexedItem(inv[i].value, i);
        assert Scan(inv, Named(name), i) == [e] + Scan(inv, Named(name), i + 1);
        assert ([e] + Scan(inv, Named(name), i + 1))[1..] == Scan(inv, Named(name), i + 1);
      }
    }
  }

  /** The indices of the empty entries of a store, ascending. */
  method GetEmptySlots(store: seq<Option<Item>>) returns (slots: seq<nat>)
    ensures forall k :: 0 <= k < |slots| ==> slots[k] < |store| && store[slots[k]].None?
    ensures forall k, l :: 0 <= k < l < |slots| ==> slots[k] < slots[l]
    ensures forall j :: 0 <= j < |store| && store[j].None? ==> j in slots
  {
    slots := [];
    var i := 0;
    while i < |store|
      invariant 0 <= i <= |store|
      invariant forall k :: 0 <= k < |slots| ==> slots[k] < i && store[slots[k]].None?
      invariant forall k, l :: 0 <= k < l < |slots| ==> slots[k] < slots[l]
      invariant forall j :: 0 <= j < i && store[j].None? ==> j in slots
    {
      if store[i].None? {
        slots := slots + [i];
      }
      i := i + 1;
    }
  }

  // ---------------------------------------------------------------------
  // Bank

  datatype BankSlot = BankSlot(pack: string, index: nat)

  /** The bank is a keyed object of packs; its "gold" key is not a pack. */
  type Bank = seq<(string, seq<Option<Item>>)>

  /** The empty slots among the first `n` slots of one pack, ascending. */
  function EmptyInPack(pack: string, items: seq<Option<Item>>, n: nat): seq<BankSlot>
  {
    if n == 0 then []
    else EmptyInPack(pack, items, n - 1) + (if Occupied(items, n - 1) then [] else [BankSlot(pack, n - 1)])
  }

  /** The empty slots of every pack, pack by pack. */
  function EmptyBankSlots(bank: Bank): seq<BankSlot>
  {
    if bank == [] then []
    else
      var last := bank[|bank| - 1];
      EmptyBankSlots(bank[..|bank| - 1]) + (if last.0 == "gold" then [] else EmptyInPack(last.0, last.1, InventorySize))
  }

  lemma {:induction false} EmptyInPackExact(pack: string, items: seq<Option<Item>>, n: nat, s: BankSlot)
    ensures s in EmptyInPack(pack, items, n) <==> s.pack == pack && s.index < n && !Occupied(items, s.index)
  {
    if n > 0 {
      EmptyInPackExact(pack, items, n - 1, s);
    }
  }

  /** Every listed slot is an empty slot, among the first 42, of a pack other than "gold". */
  lemma {:induction false} EmptyBankSlotsSound(bank: Bank, s: BankSlot)
    requires s in EmptyBankSlots(bank)
    ensures s.pack != "gold" && s.index < InventorySize
    ensures exists k :: 0 <= k < |bank| && bank[k].0 == s.pack && !Occupied(bank[k].1, s.index)
  {
    var init := bank[..|bank| - 1];
    var last := bank[|bank| - 1];
    if s in EmptyBankSlots(init) {
      EmptyBankSlotsSound(init, s);
      var k :| 0 <= k < |init| && init[k].0 == s.pack && !Occupied(init[k].1, s.index);
      assert bank[k] == init[k];
    } else {
      EmptyInPackExact(last.0, last.1, InventorySize, s);
    }
  }

  /** Every empty slot among the first 42 of a pack other than "gold" is listed. */
  lemma {:induction false} EmptyBankSlotsComplete(bank: Bank, k: nat, i: nat)
    requires k < |bank| && bank[k].0 != "gold"
    requires i < InventorySize && !Occupied(bank[k].1, i)
    ensures BankSlot(bank[k].0, i) in EmptyBankSlots(bank)
  {
    var init := bank[..|bank| - 1];
    if k < |bank| - 1 {
      assert init[k] == bank[k];
      EmptyBankSlotsComplete(init, k, i);
    } else {
      EmptyInPackExact(bank[k].0, bank[k].1, InventorySize, BankSlot(bank[k].0, i));
    }
  }

  /** The empty bank slots, known only while the character is on the bank map. */
  method GetEmptyBankSlots(me: Me, bank: Bank) returns (r: Option<seq<BankSlot>>)
    ensures r.None? <==> me.mapName != "bank"
    ensures r.Some? ==> r.value == EmptyBankSlots(bank)
  {
    if me.mapName != "bank" {
      return None;
    }
    var slots := [];
    var p := 0;
    while p < |bank|
      invariant 0 <= p <= |bank|
      invariant slots == EmptyBankSlots(bank[..p])
    {
      var store := bank[p];
      assert bank[..p + 1][..p] == bank[..p];
      if store.0 != "gold" {
        var i := 0;
        while i < InventorySize
          invariant 0 <= i <= InventorySize
          invariant slots == EmptyBankSlots(bank[..p]) + EmptyInPack(store.0, store.1, i)
        {
          if !Occupied(store.1, i) {
            slots := slots + [BankSlot(store.0, i)];
          }
          i := i + 1;
        }
      }
      p := p + 1;
    }
    assert bank[..|bank|] == bank;
    return Some(slots);
  }

  // ---------------------------------------------------------------------
  // Cooldown gate

  /** A next-use timestamp is recorded for the skill. */
  predicate HasTimestamp(w: World, skill: string)
  {
    w.nextSkill.Some? && skill in w.nextSkill.value
  }

  /** How long to wait before the skill may be used; never less than the ping. */
  function CooldownMS(w: World, skill: string): (ms: int)
    ensures ms >= w.me.ping
    ensures !HasTimestamp(w, skill) ==> ms == w.me.ping
    ensures HasTimestamp(w, skill) ==> ms >= w.nextSkill.value[skill] - w.now
    ensures HasTimestamp(w, skill) ==> ms == w.me.ping || ms == w.nextSkill.value[skill] - w.now
  {
    if w.nextSkill.Some? && skill in w.nextSkill.value then
      var ms := w.nextSkill.value[skill] - w.now;
      if ms < w.me.ping then w.me.ping else ms
    else
      w.me.ping
  }

  /** The skill needs a higher level than ours (a level of 0 counts as unset). */
  predicate LevelTooLow(info: SkillInfo, level: int)
  {
    info.level.Some? && info.level.value != 0 && info.level.value > level
  }

  /** The MP a skill costs: its own cost, else `mp_cost` for attack and heal, else nothing. */
  function SkillCost(skill: string, info: SkillInfo, mpCost: int): int
  {
    if info.mp.Some? && info.mp.value != 0 then info.mp.value
    else if skill == "attack" || skill == "heal" then mpCost
    else 0
  }

  predicate IsMultiShot(skill: string)
  {
    skill == "3shot" || skill == "5shot"
  }

  /** The level, MP and "cooldowns known" checks all pass. */
  predicate GatesPass(w: World, skill: string)
  {
    && !LevelTooLow(w.skills(skill), w.me.level)
    && w.me.mp >= SkillCost(skill, w.skills(skill), w.me.mpCost)
    && w.nextSkill.Some?
  }

  /** The skill can be used now. */
  function IsAvailable(w: World, skill: string): (ok: bool)
    ensures !GatesPass(w, skill) ==> !ok
    ensures GatesPass(w, skill) && !HasTimestamp(w, skill) ==> ok
    ensures GatesPass(w, skill) && HasTimestamp(w, skill) && IsMultiShot(skill) ==>
      (ok <==> (HasTimestamp(w, "attack") ==> w.now >= w.nextSkill.value["attack"]))
    ensures GatesPass(w, skill) && HasTimestamp(w, skill) && !IsMultiShot(skill) ==>
      (ok <==> w.now >= w.nextSkill.value[skill])
  {
    var info := w.skills(skill);
    if LevelTooLow(info, w.me.level) then false
    else if w.me.mp < SkillCost(skill, info, w.me.mpCost) then false
    else if w.nextSkill.None? then false
    else if skill !in w.nextSkill.value then true
    else if IsMultiShot(skill) then
      if "attack" in w.nextSkill.value then w.now >= w.nextSkill.value["attack"] else true
    else w.now >= w.nextSkill.value[skill]
  }

  /** As time passes, nothing but a new timestamp can make an available skill unavailable. */
  lemma AvailabilityPersists(w: World, skill: string, later: int)
    requires IsAvailable(w, skill)
    requires later >= w.now
    ensures IsAvailable(w.(now := later), skill)
  {
  }

  /** Waiting the reported cooldown is enough for a skill whose gates pass (multi-shot skills excepted). */
  lemma WaitingCooldownSuffices(w: World, skill: string)
    requires GatesPass(w, skill) && !IsMultiShot(skill)
    ensures IsAvailable(w.(now := w.now + CooldownMS(w, skill)), skill)
  {
  }

  // ---------------------------------------------------------------------
  // Entities attacking us

  /** The entity targets us, and it is not a player while PvP is off. */
  predicate AttacksMe(e: Entity, myId: string, pvp: bool)
  {
    e.target == Some(myId) && !(IsPlayer(e) && !pvp)
  }

  function Attacking(es: seq<Entity>, myId: string, pvp: bool): seq<Entity>
  {
    if es == [] then []
    else
      var last := es[|es| - 1];
      Attacking(es[..|es| - 1], myId, pvp) + (if AttacksMe(last, myId, pvp) then [last] else [])
  }

  lemma {:induction false} AttackingExact(es: seq<Entity>, myId: string, pvp: bool)
    ensures forall e :: e in Attacking(es, myId, pvp) <==> e in es && AttacksMe(e, myId, pvp)
  {
    if es != [] {
      AttackingExact(es[..|es| - 1], myId, pvp);
      assert es == es[..|es| - 1] + [es[|es| - 1]];
    }
  }

  /**
   * What the classification means for the attackers: outside PvP no player
   * is among them, while a monster or an NPC targeting us always is, and
   * with PvP on every entity targeting us is.
   */
  lemma {:induction false} AttackersByKind(es: seq<Entity>, myId: string)
    ensures forall e :: e in Attacking(es, myId, false) ==> !IsPlayer(e) && e.target == Some(myId)
    ensures forall e :: e in es && e.target == Some(myId) && (IsMonster(e) || IsNPC(e)) ==> e in Attacking(es, myId, false)
    ensures forall e :: e in es && e.target == Some(myId) ==> e in Attacking(es, myId, true)
  {
    AttackingExact(es, myId, false);
    AttackingExact(es, myId, true);
  }

  /** The entities attacking us, in iteration order. */
  method GetAttackingEntities(w: World) returns (r: seq<Entity>)
    ensures r == Attacking(w.entities, w.me.id, w.pvp)
    ensures forall e :: e in r <==> e in w.entities && e.target == Some(w.me.id) && !(IsPlayer(e) && !w.pvp)
  {
    r := [];
    var i := 0;
    while i < |w.entities|
      invariant 0 <= i <= |w.entities|
      invariant r == Attacking(w.entities[..i], w.me.id, w.pvp)
    {
      var e := w.entities[i];
      assert w.entities[..i + 1][..i] == w.entities[..i];
      if e.target == Some(w.me.id) && !(IsPlayer(e) && !w.pvp) {
        r := r + [e];
      }
      i := i + 1;
    }
    assert w.entities[..i] == w.entities;
    AttackingExact(w.entities, w.me.id, w.pvp);
  }

  // ---------------------------------------------------------------------
  // Monster spawns

  /** One rectangle `[x1, y1, x2, y2]` of a monster area on its own map. */
  datatype Rect = Rect(x1: int, y1: int, x2: int, y2: int)

  /** One rectangle `[map, x1, y1, x2, y2]` that names its own map. */
  datatype Boundary = Boundary(mapName: string, x1: int, y1: int, x2: int, y2: int)

  datatype MonsterArea = MonsterArea(mtype: string, boundary: Option<Rect>, boundaries: seq<Boundary>)

  datatype GameMap = GameMap(id: string, instance: bool, monsters: seq<MonsterArea>)

  function Mid(a: int, b: int): real
  {
    (a + b) as real / 2.0
  }

  function Midpoint(b: Boundary): Position
  {
    Position(b.mapName, Mid(b.x1, b.x2), Mid(b.y1, b.y2))
  }

  function BoundarySpawns(bs: seq<Boundary>): seq<Position>
  {
    if bs == [] then [] else BoundarySpawns(bs[..|bs| - 1]) + [Midpoint(bs[|bs| - 1])]
  }

  /** The spawn points one monster area contributes for `mtype`. */
  function AreaSpawns(mapId: string, a: MonsterArea, mtype: string): seq<Position>
  {
    if a.mtype != mtype then []
    else if a.boundary.Some? then
      [Position(mapId, Mid(a.boundary.value.x1, a.boundary.value.x2), Mid(a.boundary.value.y1, a.boundary.value.y2))]
    else BoundarySpawns(a.boundaries)
  }

  function AreasSpawns(mapId: string, areas: seq<MonsterArea>, mtype: string): seq<Position>
  {
    if areas == [] then []
    else AreasSpawns(mapId, areas[..|areas| - 1], mtype) + AreaSpawns(mapId, areas[|areas| - 1], mtype)
  }

  function Spawns(maps: seq<GameMap>, mtype: string): seq<Position>
  {
    if maps == [] then []
    else
      var m := maps[|maps| - 1];
      Spawns(maps[..|maps| - 1], mtype) + (if m.instance then [] else AreasSpawns(m.id, m.monsters, mtype))
  }

  /** A list of boundaries yields one midpoint per boundary, in order. */
  lemma {:induction false} BoundarySpawnsAreMidpoints(bs: seq<Boundary>)
    ensures |BoundarySpawns(bs)| == |bs|
    ensures forall k :: 0 <= k < |bs| ==> BoundarySpawns(bs)[k] == Midpoint(bs[k])
  {
    if bs != [] {
      BoundarySpawnsAreMidpoints(bs[..|bs| - 1]);
    }
  }

  /** A matching area yields one point per boundary it declares. */
  lemma AreaSpawnCount(mapId: string, a: MonsterArea, mtype: string)
    ensures |AreaSpawns(mapId, a, mtype)| ==
      if a.mtype != mtype then 0 else if a.boundary.Some? then 1 else |a.boundaries|
  {
    BoundarySpawnsAreMidpoints(a.boundaries);
  }

  lemma {:induction false} AreasSpawnsFrom(mapId: string, areas: seq<MonsterArea>, mtype: string, p: Position)
    ensures p in AreasSpawns(mapId, areas, mtype) <==>
      exists j :: 0 <= j < |areas| && p in AreaSpawns(mapId, areas[j], mtype)
  {
    if areas != [] {
      var init := areas[..|areas| - 1];
      AreasSpawnsFrom(mapId, init, mtype, p);
      if p in AreasSpawns(mapId, areas, mtype) {
        if p in AreasSpawns(mapId, init, mtype) {
          var j :| 0 <= j < |init| && p in AreaSpawns(mapId, init[j], mtype);
          assert areas[j] == init[j];
        }
      } else {
        forall j | 0 <= j < |areas| ensures p !in AreaSpawns(mapId, areas[j], mtype) {
          if j < |areas| - 1 {
            assert areas[j] == init[j];
          }
        }
      }
    }
  }

  /**
   * A point is a spawn point of `mtype` exactly when some area of that
   * monster, on a map that is not an instance, yields it.
   */
  lemma {:induction false} SpawnsExact(maps: seq<GameMap>, mtype: string, p: Position)
    ensures p in Spawns(maps, mtype) <==>
      exists i, j :: 0 <= i < |maps| && !maps[i].instance && 0 <= j < |maps[i].monsters|
                     && maps[i].monsters[j].mtype == mtype
                     && p in AreaSpawns(maps[i].id, maps[i].monsters[j], mtype)
  {
    if maps != [] {
      var init := maps[..|maps| - 1];
      var m := maps[|maps| - 1];
      SpawnsExact(init, mtype, p);
      AreasSpawnsFrom(m.id, m.monsters, mtype, p);
      if p in Spawns(maps, mtype) {
        if p in Spawns(init, mtype) {
          var i, j :| 0 <= i < |init| && !init[i].instance && 0 <= j < |init[i].monsters|
                      && init[i].monsters[j].mtype == mtype
                      && p in AreaSpawns(init[i].id, init[i].monsters[j], mtype);
          assert maps[i] == init[i];
        } else {
          var j :| 0 <= j < |m.monsters| && p in AreaSpawns(m.id, m.monsters[j], mtype);
          assert maps[|maps| - 1] == m;
        }
      } else {
        forall i, j | 0 <= i < |maps| && !maps[i].instance && 0 <= j < |maps[i].monsters|
                      && maps[i].monsters[j].mtype == mtype
          ensures p !in AreaSpawns(maps[i].id, maps[i].monsters[j], mtype)
        {
          if i < |maps| - 1 {
            assert maps[i] == init[i];
          }
        }
      }
    }
  }

  /** The spawn points of `mtype` on every map that is not an instance. */
  method GetMonsterSpawns(maps: seq<GameMap>, mtype: string) returns (r: seq<Position>)
    ensures r == Spawns(maps, mtype)
  {
    r := [];
    var i := 0;
    while i < |maps|
      invariant 0 <= i <= |maps|
      invariant r == Spawns(maps[..i], mtype)
    {
      var m := maps[i];
      if !m.instance {
        var points := MapSpawnPoints(m, mtype);
        r := r + points;
      }
      SpawnsStep(maps, i, mtype);
      i := i + 1;
    }
    assert maps[..i] == maps;
  }

  /** The spawn points of `mtype` on one map (the loop over its `monsters`). */
  method MapSpawnPoints(m: GameMap, mtype: string) returns (points: seq<Position>)
    ensures points == AreasSpawns(m.id, m.monsters, mtype)
  {
    points := [];
    var j := 0;
    while j < |m.monsters|
      invariant 0 <= j <= |m.monsters|
      invariant points == AreasSpawns(m.id, m.monsters[..j], mtype)
    {
      var a := m.monsters[j];
      AreasSpawnsStep(m.id, m.monsters, j, mtype);
      if a.mtype == mtype {
        if a.boundary.Some? {
          var b := a.boundary.value;
          points := points + [Position(m.id, Mid(b.x1, b.x2), Mid(b.y1, b.y2))];
        } else {
          var more := BoundaryMidpoints(a.boundaries);
          points := points + more;
        }
      }
      j := j + 1;
    }
    assert m.monsters[..j] == m.monsters;
  }

  /** One midpoint per boundary, in order (the inner loop over `boundaries`). */
  method BoundaryMidpoints(bs: seq<Boundary>) returns (points: seq<Position>)
    ensures points == BoundarySpawns(bs)
  {
    points := [];
    var k := 0;
    while k < |bs|
      invariant 0 <= k <= |bs|
      invariant points == BoundarySpawns(bs[..k])
    {
      var bd := bs[k];
      assert bs[..k + 1][..k] == bs[..k];
      points := points + [Position(bd.mapName, Mid(bd.x1, bd.x2), Mid(bd.y1, bd.y2))];
      k := k + 1;
    }
    assert bs[..k] == bs;
  }

  lemma SpawnsStep(maps: seq<GameMap>, i: nat, mtype: string)
    requires i < |maps|
    ensures Spawns(maps[..i + 1], mtype) ==
      Spawns(maps[..i], mtype) + (if maps[i].instance then [] else AreasSpawns(maps[i].id, maps[i].monsters, mtype))
  {
    assert maps[..i + 1][..i] == maps[..i];
  }

  lemma AreasSpawnsStep(mapId: string, areas: seq<MonsterArea>, j: nat, mtype: string)
    requires j < |areas|
    ensures AreasSpawns(mapId, areas[..j + 1], mtype) == AreasSpawns(mapId, areas[..j], mtype) + AreaSpawns(mapId, areas[j], mtype)
  {
    assert areas[..j + 1][..j] == areas[..j];
  }
}
