/**
 * The movement objective (`getMovementTarget`): an ordered list of guarded
 * rules, the first that applies deciding where to go. Rules that home in on a
 * monster type also set the pathfinder's movement target, which target
 * selection rewards.
 */
module Movement {
  import opened Wrappers
  import opened Game
  import opened Dict
  import opened Targeting
  import Functions

  /** A spawn point near a tracked NPC, as `getNearbyMonsterSpawns` lists them (closest first). */
  datatype NearbySpawn = NearbySpawn(mapName: string, x: real, y: real, monster: string)

  /**
   * What the cascade reads besides the character's own configuration: the
   * visible entities, our status and inventory, the map landmarks, the live
   * event monsters (`parent.S`, in key order), the spawn points near Kane and
   * near Angel (computed outside), and the sampled spawn point per monster
   * type (random, computed outside).
   */
  datatype MoveView = MoveView(
    entities: seq<Entity>,
    s: Status,
    items: seq<Option<Item>>,
    newyearTree: Option<Position>,
    monsterhunter: Position,
    events: seq<(string, Position)>,
    kaneSpawns: seq<NearbySpawn>,
    angelSpawns: seq<NearbySpawn>,
    randomSpawn: string -> Option<Position>)

  /** A movement objective: a label, and a place to go unless the pathfinder is to home in. */
  datatype Objective = Objective(message: string, target: Option<Position>)

  /** What happens to the pathfinder's movement target. */
  datatype Retarget = Keep | SetTo(mtype: Option<string>)

  /**
   * The outcome of one evaluation. `MainTargetMissing` is the TypeError the
   * last rule throws when the main target has no table entry (after it has
   * already set the movement target).
   */
  datatype Decision =
    | Decided(objective: Option<Objective>, retarget: Retarget)
    | MainTargetMissing(retarget: Retarget)

  const DropOff := Position("main", 60.0, -325.0)

  /** Some visible entity is of the given monster type. */
  predicate Visible(es: seq<Entity>, mtype: string)
  {
    exists i :: 0 <= i < |es| && es[i].mtype == Some(mtype)
  }

  /** The entity with this id is visible (`canSeePlayer`). */
  predicate CanSee(es: seq<Entity>, id: string)
  {
    exists i :: 0 <= i < |es| && es[i].id == id
  }

  /** All 42 inventory slots are occupied. */
  predicate InventoryFull(items: seq<Option<Item>>)
  {
    forall i :: 0 <= i < Functions.InventorySize ==> Functions.Occupied(items, i)
  }

  /** The table entry pins a place: map, x and y are all set (0 counts as unset). */
  predicate Pinned(e: PriorityEntry)
  {
    && e.mapName.Some? && e.mapName.value != ""
    && e.x.Some? && e.x.value != 0.0
    && e.y.Some? && e.y.value != 0.0
  }

  function PinnedPosition(e: PriorityEntry): Position
    requires Pinned(e)
  {
    Position(e.mapName.value, e.x.value, e.y.value)
  }

  /** Where to look for a table monster: its pinned place, else a sampled spawn point. */
  function PlaceOf(v: MoveView, t: PriorityTable, mtype: string): Option<Position>
    requires mtype in t
  {
    if Pinned(t[mtype]) then Some(PinnedPosition(t[mtype])) else v.randomSpawn(mtype)
  }

  function SpawnPosition(s: NearbySpawn): Position
  {
    Position(s.mapName, s.x, s.y)
  }

  /** The first live event monster, in key order, that has a table entry. */
  function FirstEvent(events: seq<(string, Position)>, t: PriorityTable): (r: Option<(string, Position)>)
  {
    if events == [] then None
    else if events[0].0 in t then Some(events[0])
    else FirstEvent(events[1..], t)
  }

  /** The monster hunts of party members that are still running and that we can do. */
  function PartyHunts(party: Dict<PartyInfo>, t: PriorityTable): seq<string>
  {
    if party == [] then []
    else
      var s := party[0].1.s;
      (if s.monsterhunt.Some? && s.monsterhunt.value.c != 0 && s.monsterhunt.value.id in t
       then [s.monsterhunt.value.id] else [])
      + PartyHunts(party[1..], t)
  }

  /** Our own monster hunt when we can do it, then the party's. */
  function HuntTargets(s: Status, t: PriorityTable, party: Dict<PartyInfo>): seq<string>
  {
    (if s.monsterhunt.Some? && s.monsterhunt.value.id in t then [s.monsterhunt.value.id] else [])
    + PartyHunts(party, t)
  }

  /** The type of the first visible entity, in iteration order, that is a hunt target. */
  function FirstHuntSeen(es: seq<Entity>, hunts: seq<string>): Option<string>
  {
    if es == [] then None
    else if es[0].mtype.Some? && es[0].mtype.value in hunts then es[0].mtype
    else FirstHuntSeen(es[1..], hunts)
  }

  /** A spawn near Kane at the same point as one near Angel, whose monster has a table entry. */
  predicate SharedTabled(k: NearbySpawn, as_: seq<NearbySpawn>, t: PriorityTable)
  {
    (exists j :: 0 <= j < |as_| && as_[j].x == k.x && as_[j].y == k.y) && k.monster in t
  }

  /** The first spawn near Kane that is also near Angel and whose monster has a table entry. */
  function FirstSharedSpawn(ks: seq<NearbySpawn>, as_: seq<NearbySpawn>, t: PriorityTable): Option<NearbySpawn>
  {
    if ks == [] then None
    else if SharedTabled(ks[0], as_, t) then Some(ks[0])
    else FirstSharedSpawn(ks[1..], as_, t)
  }

  /**
   * The Kane and Angel rule, once both are known (visible or reported):
   * stay when both are visible, go to a spawn near both, else stay with or
   * go near Kane, else Angel. Nothing when none of these applies.
   */
  function LuckRule(v: MoveView, t: PriorityTable): Option<Decision>
  {
    var kane := CanSee(v.entities, "Kane");
    var angel := CanSee(v.entities, "Angel");
    var shared := FirstSharedSpawn(v.kaneSpawns, v.angelSpawns, t);
    if kane && angel then Some(Decided(Some(Objective("2x1000% farm", None)), SetTo(None)))
    else if shared.Some? then
      Some(Decided(Some(Objective("2x1000% farm", Some(SpawnPosition(shared.value)))), SetTo(Some(shared.value.monster))))
    else if kane then Some(Decided(Some(Objective("1000% luck", None)), SetTo(None)))
    else if v.kaneSpawns != [] then
      Some(Decided(Some(Objective("1000% luck", Some(SpawnPosition(v.kaneSpawns[0])))), SetTo(Some(v.kaneSpawns[0].monster))))
    else if angel then Some(Decided(Some(Objective("1000% gold", None)), SetTo(None)))
    else if v.angelSpawns != [] then
      Some(Decided(Some(Objective("1000% gold", Some(SpawnPosition(v.angelSpawns[0])))), SetTo(Some(v.angelSpawns[0].monster))))
    else None
  }

  /** The last rule: the main target. Nothing to do when one is visible. */
  function MainTargetRule(v: MoveView, t: PriorityTable, mainTarget: string): Decision
  {
    if Visible(v.entities, mainTarget) then Decided(None, SetTo(Some(mainTarget)))
    else if mainTarget !in t then MainTargetMissing(SetTo(Some(mainTarget)))
    else Decided(Some(Objective(mainTarget, PlaceOf(v, t, mainTarget))), SetTo(Some(mainTarget)))
  }

  /** The whole cascade, rule by rule in source order. */
  function GetMovementTarget(v: MoveView, t: PriorityTable, mainTarget: string,
                             party: Dict<PartyInfo>, npcs: Dict<NpcInfo>): (d: Decision)
    ensures d.MainTargetMissing? ==>
      mainTarget !in t && !Visible(v.entities, mainTarget) && d.retarget == SetTo(Some(mainTarget))
    ensures d.Decided? && d.retarget == Keep ==>
      d.objective.Some? && d.objective.value.message in {"Xmas Tree", "Full!", "Finish MH", "New MH"}
  {
    if Visible(v.entities, "goldenbat") then
      Decided(Some(Objective("goldenbat", None)), SetTo(Some("goldenbat")))
    else if v.newyearTree.Some? && !v.s.holidayspirit then
      Decided(Some(Objective("Xmas Tree", v.newyearTree)), Keep)
    else if InventoryFull(v.items) then
      Decided(Some(Objective("Full!", Some(DropOff))), Keep)
    else if FirstEvent(v.events, t).Some? then
      var (m, place) := FirstEvent(v.events, t).value;
      Decided(Some(Objective(m, if Visible(v.entities, m) then None else Some(place))), SetTo(Some(m)))
    else if v.s.monsterhunt.Some? && v.s.monsterhunt.value.c == 0 then
      Decided(Some(Objective("Finish MH", Some(v.monsterhunter))), Keep)
    else
      var hunts := HuntTargets(v.s, t, party);
      var seen := FirstHuntSeen(v.entities, hunts);
      if seen.Some? then
        Decided(Some(Objective("MH " + seen.value, None)), SetTo(seen))
      else if v.s.monsterhunt.None? then
        Decided(Some(Objective("New MH", Some(v.monsterhunter))), Keep)
      else if hunts != [] then
        HuntTargetsInTable(v.s, t, party);
        Decided(Some(Objective("MH " + hunts[0], PlaceOf(v, t, hunts[0]))), SetTo(Some(hunts[0])))
      else if (CanSee(v.entities, "Kane") || Get(npcs, "Kane").Some?)
           && (CanSee(v.entities, "Angel") || Get(npcs, "Angel").Some?)
           && LuckRule(v, t).Some? then
        LuckRule(v, t).value
      else
        MainTargetRule(v, t, mainTarget)
  }

  // ---------------------------------------------------------------------
  // Helper facts

  lemma {:induction false} PartyHuntsInTable(party: Dict<PartyInfo>, t: PriorityTable)
    ensures forall m :: m in PartyHunts(party, t) ==> m in t
  {
    if party != [] {
      PartyHuntsInTable(party[1..], t);
    }
  }

  /** Every hunt target has a table entry. */
  lemma HuntTargetsInTable(s: Status, t: PriorityTable, party: Dict<PartyInfo>)
    ensures forall m :: m in HuntTargets(s, t, party) ==> m in t
  {
    PartyHuntsInTable(party, t);
  }

  lemma {:induction false} FirstEventInTable(events: seq<(string, Position)>, t: PriorityTable)
    ensures FirstEvent(events, t).Some? ==> FirstEvent(events, t).value in events && FirstEvent(events, t).value.0 in t
    ensures FirstEvent(events, t).None? <==> forall i :: 0 <= i < |events| ==> events[i].0 !in t
  {
    if events != [] && events[0].0 !in t {
      FirstEventInTable(events[1..], t);
      assert forall i :: 1 <= i < |events| ==> events[i] == events[1..][i - 1];
    }
  }

  lemma {:induction false} FirstHuntSeenSound(es: seq<Entity>, hunts: seq<string>)
    ensures FirstHuntSeen(es, hunts).Some? ==>
      FirstHuntSeen(es, hunts).value in hunts && Visible(es, FirstHuntSeen(es, hunts).value)
    ensures FirstHuntSeen(es, hunts).None? ==>
      forall i :: 0 <= i < |es| && es[i].mtype.Some? ==> es[i].mtype.value !in hunts
  {
    if es != [] && !(es[0].mtype.Some? && es[0].mtype.value in hunts) {
      FirstHuntSeenSound(es[1..], hunts);
      var r := FirstHuntSeen(es[1..], hunts);
      if r.Some? {
        var i :| 0 <= i < |es[1..]| && es[1..][i].mtype == Some(r.value);
        assert es[i + 1].mtype == Some(r.value);
      }
      assert forall i :: 1 <= i < |es| ==> es[i] == es[1..][i - 1];
    }
  }

  /**
   * The shared spawn chosen is one of Kane's spawns, tabled and at the point
   * of one of Angel's, and no earlier Kane spawn qualifies; none is chosen
   * exactly when no Kane spawn qualifies.
   */
  lemma {:induction false} FirstSharedSpawnSound(ks: seq<NearbySpawn>, as_: seq<NearbySpawn>, t: PriorityTable)
    ensures FirstSharedSpawn(ks, as_, t).Some? ==>
      var k := FirstSharedSpawn(ks, as_, t).value;
      && k.monster in t && (exists j :: 0 <= j < |as_| && as_[j].x == k.x && as_[j].y == k.y)
      && exists i :: 0 <= i < |ks| && ks[i] == k && forall i' :: 0 <= i' < i ==> !SharedTabled(ks[i'], as_, t)
    ensures FirstSharedSpawn(ks, as_, t).None? <==> forall i :: 0 <= i < |ks| ==> !SharedTabled(ks[i], as_, t)
  {
    if ks != [] {
      if !SharedTabled(ks[0], as_, t) {
        FirstSharedSpawnSound(ks[1..], as_, t);
        var r := FirstSharedSpawn(ks[1..], as_, t);
        if r.Some? {
          var i :| 0 <= i < |ks[1..]| && ks[1..][i] == r.value
                   && forall i' :: 0 <= i' < i ==> !SharedTabled(ks[1..][i'], as_, t);
          assert ks[i + 1] == r.value;
          assert forall i' :: 0 <= i' < i + 1 ==> !SharedTabled(ks[i'], as_, t) by {
            forall i' | 0 <= i' < i + 1 ensures !SharedTabled(ks[i'], as_, t) {
              if i' > 0 { assert ks[i'] == ks[1..][i' - 1]; }
            }
          }
        } else {
          forall i | 0 <= i < |ks| ensures !SharedTabled(ks[i], as_, t) {
            if i > 0 { assert ks[i] == ks[1..][i - 1]; }
          }
        }
      }
    }
  }

  // ---------------------------------------------------------------------
  // Precedence: the first rule that applies wins

  /** A visible golden bat wins over everything. */
  lemma GoldenBatFirst(v: MoveView, t: PriorityTable, mainTarget: string, party: Dict<PartyInfo>, npcs: Dict<NpcInfo>)
    requires Visible(v.entities, "goldenbat")
    ensures GetMovementTarget(v, t, mainTarget, party, npcs)
         == Decided(Some(Objective("goldenbat", None)), SetTo(Some("goldenbat")))
  {
  }

  /**
   * With no golden bat and the new-year buff handled, a full inventory
   * sends us to the drop-off point before any event or quest rule is
   * consulted, and leaves the movement target alone.
   */
  lemma FullInventoryBeforeQuests(v: MoveView, t: PriorityTable, mainTarget: string, party: Dict<PartyInfo>, npcs: Dict<NpcInfo>)
    requires !Visible(v.entities, "goldenbat")
    requires v.newyearTree.None? || v.s.holidayspirit
    requires InventoryFull(v.items)
    ensures GetMovementTarget(v, t, mainTarget, party, npcs) == Decided(Some(Objective("Full!", Some(DropOff))), Keep)
  {
  }

  /**
   * An event monster with a table entry comes before every quest rule: the
   * first such one in key order is tracked, by place unless one is visible.
   */
  lemma EventBeforeQuests(v: MoveView, t: PriorityTable, mainTarget: string, party: Dict<PartyInfo>, npcs: Dict<NpcInfo>, k: nat)
    requires !Visible(v.entities, "goldenbat")
    requires v.newyearTree.None? || v.s.holidayspirit
    requires !InventoryFull(v.items)
    requires k < |v.events| && v.events[k].0 in t
    requires forall i :: 0 <= i < k ==> v.events[i].0 !in t
    ensures GetMovementTarget(v, t, mainTarget, party, npcs) ==
      Decided(Some(Objective(v.events[k].0, if Visible(v.entities, v.events[k].0) then None else Some(v.events[k].1))),
              SetTo(Some(v.events[k].0)))
  {
    FirstEventAt(v.events, t, k);
  }

  lemma {:induction false} FirstEventAt(events: seq<(string, Position)>, t: PriorityTable, k: nat)
    requires k < |events| && events[k].0 in t
    requires forall i :: 0 <= i < k ==> events[i].0 !in t
    ensures FirstEvent(events, t) == Some(events[k])
  {
    if k > 0 {
      FirstEventAt(events[1..], t, k - 1);
    }
  }

  /**
   * A visible quest target is tracked before a new quest is fetched or a
   * distant one is walked to; without an own quest, the quest giver is next.
   */
  lemma HuntSeenBeforeNewHunt(v: MoveView, t: PriorityTable, mainTarget: string, party: Dict<PartyInfo>, npcs: Dict<NpcInfo>)
    requires !Visible(v.entities, "goldenbat")
    requires v.newyearTree.None? || v.s.holidayspirit
    requires !InventoryFull(v.items)
    requires forall i :: 0 <= i < |v.events| ==> v.events[i].0 !in t
    requires v.s.monsterhunt.None? || v.s.monsterhunt.value.c != 0
    ensures var d := GetMovementTarget(v, t, mainTarget, party, npcs);
      var seen := FirstHuntSeen(v.entities, HuntTargets(v.s, t, party));
      && (seen.Some? ==> d == Decided(Some(Objective("MH " + seen.value, None)), SetTo(seen)))
      && (seen.Some? ==> seen.value in t && Visible(v.entities, seen.value))
      && (seen.None? && v.s.monsterhunt.None? ==> d == Decided(Some(Objective("New MH", Some(v.monsterhunter))), Keep))
  {
    FirstEventInTable(v.events, t);
    FirstHuntSeenSound(v.entities, HuntTargets(v.s, t, party));
    HuntTargetsInTable(v.s, t, party);
  }

  /**
   * Whatever the cascade decides, a movement target it sets is the golden
   * bat, a monster type with a table entry, the main target, or the monster
   * of the spawn nearest Kane or Angel (those two are not checked against
   * the table).
   */
  lemma RetargetSources(v: MoveView, t: PriorityTable, mainTarget: string, party: Dict<PartyInfo>, npcs: Dict<NpcInfo>)
    ensures var d := GetMovementTarget(v, t, mainTarget, party, npcs);
      d.retarget.SetTo? && d.retarget.mtype.Some? ==>
        var m := d.retarget.mtype.value;
        || m == "goldenbat" || m in t || m == mainTarget
        || (v.kaneSpawns != [] && m == v.kaneSpawns[0].monster)
        || (v.angelSpawns != [] && m == v.angelSpawns[0].monster)
  {
    FirstEventInTable(v.events, t);
    FirstHuntSeenSound(v.entities, HuntTargets(v.s, t, party));
    HuntTargetsInTable(v.s, t, party);
    FirstSharedSpawnSound(v.kaneSpawns, v.angelSpawns, t);
  }
}
