/**
 * The bot's character (`class Character`): its configuration (the target
 * priority table, the main target, the hold flags), what it has learned
 * from party messages, the pathfinder's movement target, and the steps of
 * its loops that read and update that state.
 */
module CharacterBot {
  import opened Wrappers
  import opened Game
  import opened Dict
  import opened Targeting
  import opened Functions
  import Movement
  import Evasion
  import Policies

  /** A code message from another character (`data`), by its `message` kind. */
  datatype CodeMessage =
    | InfoMsg(info: PartyInfo)
    | NpcMsg(id: string, npc: NpcInfo)
    | PlayerMsg(id: string, player: PlayerInfo)
    | OtherMsg(kind: string)

  /**
   * What a move step reads besides the snapshot: the map landmarks, live
   * events, the spawns near Kane and Angel and the sampled spawn points for
   * the movement cascade; and for kiting, the traversability oracle, the
   * one-hit damage estimate and the client's currently targeted monster.
   */
  datatype Surroundings = Surroundings(
    newyearTree: Option<Position>,
    monsterhunter: Position,
    events: seq<(string, Position)>,
    kaneSpawns: seq<Movement.NearbySpawn>,
    angelSpawns: seq<Movement.NearbySpawn>,
    randomSpawn: string -> Option<Position>,
    canMove: (Entity, real, int) -> bool,
    oneShot: Entity -> bool,
    current: Option<Entity>)

  /** The game calls one move step issues, in order. */
  datatype MoveAction =
    | SetMessage(text: string)
    | Stop
    | SaferMove(to: Position)
    | ChangeTarget(e: Entity)
    | AvoidAggro(escape: Evasion.Escape)
    | AvoidAttacking(escape: Evasion.Escape)
    | MoveToMonster

  /** `message.slice(0, 12)`. */
  function Truncate(s: string, n: nat): (r: string)
    ensures |r| <= n && r <= s
    ensures |s| <= n ==> r == s
    ensures |s| > n ==> r == s[..n] && |r| == n
  {
    if |s| <= n then s else s[..n]
  }

  /**
   * The calls `moveLoop` makes for an objective: show the new message (at
   * most 12 characters) and stop when it differs from the last one, then
   * move safely to the objective's position when it has one.
   */
  function ObjectiveActions(last: Option<string>, objective: Option<Movement.Objective>): (acts: seq<MoveAction>)
    ensures objective.None? ==> acts == []
    ensures objective.Some? && last == Some(objective.value.message) ==> Stop !in acts
    ensures objective.Some? && last != Some(objective.value.message) ==>
      |acts| >= 2 && acts[0] == SetMessage(Truncate(objective.value.message, 12)) && acts[1] == Stop
    ensures objective.Some? && objective.value.target.Some? ==>
      acts != [] && acts[|acts| - 1] == SaferMove(objective.value.target.value)
    ensures objective.Some? && objective.value.target.None? ==> forall a :: a in acts ==> !a.SaferMove?
  {
    if objective.None? then []
    else
      var o := objective.value;
      (if last != Some(o.message) then [SetMessage(Truncate(o.message, 12)), Stop] else [])
      + (if o.target.Some? then [SaferMove(o.target.value)] else [])
  }

  /** The movement cascade's view of a snapshot. */
  function MoveViewOf(w: World, env: Surroundings): Movement.MoveView
  {
    Movement.MoveView(w.entities, w.me.s, w.me.items, env.newyearTree, env.monsterhunter,
                      env.events, env.kaneSpawns, env.angelSpawns, env.randomSpawn)
  }

  /** A table entry asks to stop on sight of the focus, which we are heading for and have in range. */
  predicate StopsOnSight(t: PriorityTable, movementTarget: Option<string>, targets: seq<Entity>, me: Me)
  {
    && targets != []
    && InTable(t, targets[0].mtype) && t[targets[0].mtype.value].stopOnSight
    && movementTarget == targets[0].mtype
    && targets[0].dist < me.range as real
  }

  predicate Kites(ctype: string)
  {
    ctype == "ranger" || ctype == "mage" || ctype == "priest"
  }

  predicate Approaches(ctype: string)
  {
    ctype == "ranger" || ctype == "mage" || ctype == "warrior" || ctype == "priest"
  }

  /** The slots to re-equip and the inventory slot to take the item from, one per slot, in slot order. */
  function EquipPlan(slots: seq<(string, Option<Item>)>, inv: seq<IndexedItem>): seq<(string, nat)>
  {
    if slots == [] then []
    else
      var last := slots[|slots| - 1];
      var b := if last.1.Some? then Climb(inv, last.1.value).better else None;
      EquipPlan(slots[..|slots| - 1], inv) + (if b.Some? then [(last.0, b.value.index)] else [])
  }

  /** What slot `i` adds to the plan. */
  function SlotEquip(slot: (string, Option<Item>), inv: seq<IndexedItem>): seq<(string, nat)>
  {
    var b := if slot.1.Some? then Climb(inv, slot.1.value).better else None;
    if b.Some? then [(slot.0, b.value.index)] else []
  }

  lemma EquipPlanStep(slots: seq<(string, Option<Item>)>, inv: seq<IndexedItem>, i: nat)
    requires i < |slots|
    ensures EquipPlan(slots[..i + 1], inv) == EquipPlan(slots[..i], inv) + SlotEquip(slots[i], inv)
  {
    assert slots[..i + 1][..i] == slots[..i];
  }

  /** JavaScript's `a <= b` on item levels: false when either level is missing. */
  predicate JsLe(a: Option<int>, b: Option<int>)
  {
    a.Some? && b.Some? && a.value <= b.value
  }

  /** The scan state: the item to beat and the better item found so far. */
  datatype ClimbState = ClimbState(slotItem: Item, better: Option<IndexedItem>)

  /**
   * The inner loop of `equipBetterItems` over the inventory entries: an
   * entry of the same name whose level is not `<=` the one to beat becomes
   * the one to beat.
   */
  function Climb(inv: seq<IndexedItem>, equipped: Item): (s: ClimbState)
    ensures s.slotItem.name == equipped.name
    ensures s.better.Some? ==> s.better.value in inv && s.better.value.item == s.slotItem
  {
    if inv == [] then ClimbState(equipped, None)
    else
      var s := Climb(inv[..|inv| - 1], equipped);
      var it := inv[|inv| - 1];
      if it.item.name != s.slotItem.name || JsLe(it.item.level, s.slotItem.level) then s
      else ClimbState(it.item, Some(it))
  }

  /** Every entry of the equipped item's name, and the equipped item, carries a level. */
  predicate LevelsSet(inv: seq<IndexedItem>, equipped: Item)
  {
    equipped.level.Some? && forall k :: 0 <= k < |inv| && inv[k].item.name == equipped.name ==> inv[k].item.level.Some?
  }

  /**
   * With all levels set, the item chosen has the equipped item's name, the
   * highest level among the entries of that name, strictly above the
   * equipped level, and it is the first entry at that level; nothing is
   * chosen when no entry of that name has a higher level.
   */
  lemma {:induction false} ClimbFindsFirstBest(inv: seq<IndexedItem>, equipped: Item)
    requires LevelsSet(inv, equipped)
    ensures var s := Climb(inv, equipped);
      && s.slotItem.level.Some?
      && s.slotItem.level.value >= equipped.level.value
      && (forall k :: 0 <= k < |inv| && inv[k].item.name == equipped.name ==> inv[k].item.level.value <= s.slotItem.level.value)
      && (s.better.None? ==> s.slotItem == equipped)
      && (s.better.Some? ==>
            && s.slotItem.level.value > equipped.level.value
            && exists k :: 0 <= k < |inv| && inv[k] == s.better.value
                 && forall j :: 0 <= j < k && inv[j].item.name == equipped.name ==> inv[j].item.level.value < s.slotItem.level.value)
  {
    if inv != [] {
      var init := inv[..|inv| - 1];
      assert forall k :: 0 <= k < |init| ==> init[k] == inv[k];
      ClimbFindsFirstBest(init, equipped);
      var s := Climb(init, equipped);
      var it := inv[|inv| - 1];
      if !(it.item.name != s.slotItem.name || JsLe(it.item.level, s.slotItem.level)) {
        assert it.item.level.value > s.slotItem.level.value;
        assert inv[|inv| - 1] == it;
      } else if s.better.Some? {
        var k :| 0 <= k < |init| && init[k] == s.better.value
          && forall j :: 0 <= j < k && init[j].item.name == equipped.name ==> init[j].item.level.value < s.slotItem.level.value;
        assert inv[k] == init[k];
      }
    }
  }

  /**
   * What `equipBetterItems` does when levels are missing: an entry of the
   * same name without a level replaces an equipped item of any level.
   */
  lemma UnleveledEntryReplaces(equipped: Item, it: Item, index: nat)
    requires equipped.level.Some? && it.name == equipped.name && it.level.None?
    ensures Climb([IndexedItem(it, index)], equipped).better == Some(IndexedItem(it, index))
  {
    assert [IndexedItem(it, index)][..0] == [];
  }

  class Character {
    var targetPriority: PriorityTable
    var mainTarget: string
    var movementQueue: seq<Position>
    var holdPosition: bool
    var holdAttack: bool
    /** The pathfinder's movement target. */
    var movementTarget: Option<string>
    var party: Dict<PartyInfo>
    var npcs: Dict<NpcInfo>
    var players: Dict<PlayerInfo>
    var lastMessage: Option<string>

    /** A character with the given configuration and nothing learned yet. */
    constructor(table: PriorityTable, main: string)
      ensures targetPriority == table && mainTarget == main
      ensures movementQueue == [] && !holdPosition && !holdAttack
      ensures movementTarget == None && lastMessage == None
      ensures party == [] && npcs == [] && players == []
    {
      targetPriority := table;
      mainTarget := main;
      movementQueue := [];
      holdPosition := false;
      holdAttack := false;
      movementTarget := None;
      party := [];
      npcs := [];
      players := [];
      lastMessage := None;
    }

    /** What target selection scores against in snapshot `w`. */
    function Ctx(w: World): Context
      reads this`targetPriority, this`mainTarget, this`movementTarget
    {
      Context(targetPriority, w.me.name, w.me.attack, w.pvp, Claimed(w.entities, w.partyList),
              mainTarget, movementTarget)
    }

    /** The first loop of `getTargets`: the targets of visible party members. */
    method ClaimedTargets(es: seq<Entity>, members: seq<string>) returns (claimed: seq<string>)
      ensures claimed == Claimed(es, members)
    {
      claimed := [];
      var i := 0;
      while i < |es|
        invariant 0 <= i <= |es|
        invariant claimed == Claimed(es[..i], members)
      {
        assert es[..i + 1][..i] == es[..i];
        if es[i].id in members && es[i].target.Some? {
          claimed := claimed + [es[i].target.value];
        }
        i := i + 1;
      }
      assert es[..i] == es;
    }

    /** The score `getTargets` computes for an eligible entity, step by step. */
    method ScoreEntity(w: World, claimed: seq<string>, e: Entity) returns (score: real)
      requires claimed == Claimed(w.entities, w.partyList)
      ensures score == Score(Ctx(w), e)
    {
      var priority := 0;
      if e.mtype.Some? && e.mtype.value in targetPriority {
        priority := targetPriority[e.mtype.value].priority;
      }
      if e.id in claimed && e.hp <= w.me.attack {
        priority := priority - 250;
      }
      if e.mtype == Some(mainTarget) {
        priority := priority + 10;
      }
      if e.mtype == movementTarget {
        priority := priority + 500;
      }
      if e.target == Some(w.me.name) {
        priority := priority + 1000;
      }
      score := priority as real - e.dist;
    }

    /** The second loop of `getTargets`: score the eligible entities and enqueue them. */
    method RankTargets(w: World, claimed: seq<string>) returns (queue: seq<Scored>)
      requires claimed == Claimed(w.entities, w.partyList)
      ensures queue == Rank(Candidates(Ctx(w), w.entities))
    {
      var es := w.entities;
      queue := [];
      var i := 0;
      while i < |es|
        invariant 0 <= i <= |es|
        invariant queue == Rank(Candidates(Ctx(w), es[..i]))
      {
        RankStep(Ctx(w), es, i);
        var e := es[i];
        if (InTable(targetPriority, e.mtype) || e.target == Some(w.me.name))
           && !(e.kind != Monster && !w.pvp && e.kind == Character)
        {
          var score := ScoreEntity(w, claimed, e);
          queue := Enqueue(queue, Scored(score, e));
        }
        i := i + 1;
      }
      assert es[..i] == es;
    }

    /**
     * `getTargets(n)`: the best `n` eligible entities, best first, and the
     * entity the client focuses (`change_target`) — the first of them, and
     * none when there are none.
     */
    method GetTargets(w: World, n: nat) returns (targets: seq<Entity>, focus: Option<Entity>)
      ensures targets == Select(Ctx(w), w.entities, n)
      ensures |targets| <= n
      ensures forall e :: e in targets ==> e in w.entities && Eligible(Ctx(w), e)
      ensures forall i, j :: 0 <= i < j < |targets| ==> Score(Ctx(w), targets[i]) >= Score(Ctx(w), targets[j])
      ensures n >= 1 ==> (targets == [] <==> forall e :: e in w.entities ==> !Eligible(Ctx(w), e))
      ensures focus == if targets == [] then None else Some(targets[0])
    {
      var claimed := ClaimedTargets(w.entities, w.partyList);
      var queue := RankTargets(w, claimed);
      targets := Dequeue(queue, n);
      SelectSound(Ctx(w), w.entities, n);
      SelectOrdered(Ctx(w), w.entities, n);
      if n >= 1 {
        SelectEmpty(Ctx(w), w.entities, n);
      }
      focus := if targets == [] then None else Some(targets[0]);
    }

    /**
     * `parse_cm`: a message from a sender outside the party (and not us)
     * is ignored; otherwise it overwrites the one record its kind and key
     * select, and unknown kinds change nothing.
     */
    method ParseCm(w: World, sender: string, data: CodeMessage)
      modifies this`party, this`npcs, this`players
      ensures !(sender in w.partyList || sender == w.me.name) || data.OtherMsg? ==>
        party == old(party) && npcs == old(npcs) && players == old(players)
      ensures (sender in w.partyList || sender == w.me.name) && data.InfoMsg? ==>
        && party == Put(old(party), sender, data.info)
        && Get(party, sender) == Some(data.info)
        && (forall k :: k != sender ==> Get(party, k) == Get(old(party), k))
        && npcs == old(npcs) && players == old(players)
      ensures (sender in w.partyList || sender == w.me.name) && data.NpcMsg? ==>
        && npcs == Put(old(npcs), data.id, data.npc)
        && (forall k :: k != data.id ==> Get(npcs, k) == Get(old(npcs), k))
        && party == old(party) && players == old(players)
      ensures (sender in w.partyList || sender == w.me.name) && data.PlayerMsg? ==>
        && players == Put(old(players), data.id, data.player)
        && (forall k :: k != data.id ==> Get(players, k) == Get(old(players), k))
        && party == old(party) && npcs == old(npcs)
    {
      if !(sender in w.partyList) && w.me.name != sender {
        return;
      }
      match data {
        case InfoMsg(info) => party := Put(party, sender, info);
        case NpcMsg(id, npc) => npcs := Put(npcs, id, npc);
        case PlayerMsg(id, player) => players := Put(players, id, player);
        case OtherMsg(_) =>
      }
    }

    /** The inner loop of `equipBetterItems` for one equipped item. */
    method FindBetter(inv: seq<IndexedItem>, equipped: Item) returns (better: Option<IndexedItem>)
      ensures better == Climb(inv, equipped).better
    {
      var slotItem := equipped;
      better := None;
      var i := 0;
      while i < |inv|
        invariant 0 <= i <= |inv|
        invariant Climb(inv[..i], equipped) == ClimbState(slotItem, better)
      {
        assert inv[..i + 1][..i] == inv[..i];
        var item := inv[i];
        if item.item.name == slotItem.name && !JsLe(item.item.level, slotItem.level) {
          slotItem := item.item;
          better := Some(item);
        }
        i := i + 1;
      }
      assert inv[..i] == inv;
    }

    /**
     * `equipBetterItems`: for each equipped slot, in slot order, the
     * inventory slot of the better item to equip into it, if any.
     */
    method EquipBetterItems(w: World) returns (equips: seq<(string, nat)>)
      ensures equips == EquipPlan(w.me.slots, Scan(w.me.items, AnyItem, 0))
    {
      var items := GetInventory(w.me.items);
      var slots := w.me.slots;
      equips := [];
      var i := 0;
      while i < |slots|
        invariant 0 <= i <= |slots|
        invariant equips == EquipPlan(slots[..i], items)
      {
        EquipPlanStep(slots, items, i);
        var (slot, slotItem) := slots[i];
        if slotItem.Some? {
          var better := FindBetter(items, slotItem.value);
          if better.Some? {
            equips := equips + [(slot, better.value.index)];
          }
        }
        i := i + 1;
      }
      assert slots[..i] == slots;
    }

    /** One tick of `mainLoop`: a merchant equips nothing; the loop runs again after max(250, ping). */
    method MainStep(w: World) returns (equips: seq<(string, nat)>, delay: int)
      ensures w.me.ctype == "merchant" ==> equips == []
      ensures w.me.ctype != "merchant" ==> equips == EquipPlan(w.me.slots, Scan(w.me.items, AnyItem, 0))
      ensures delay == Policies.MainLoopDelay(w.me)
    {
      equips := [];
      if w.me.ctype != "merchant" {
        equips := EquipBetterItems(w);
      }
      delay := Policies.MainLoopDelay(w.me);
    }

    /**
     * `getMovementTarget`: evaluate the cascade and apply its change to the
     * pathfinder's movement target.
     */
    method GetMovementTarget(w: World, env: Surroundings) returns (d: Movement.Decision)
      modifies this`movementTarget
      ensures d == Movement.GetMovementTarget(MoveViewOf(w, env), targetPriority, mainTarget, party, npcs)
      ensures movementTarget == if d.retarget.SetTo? then d.retarget.mtype else old(movementTarget)
    {
      d := Movement.GetMovementTarget(MoveViewOf(w, env), targetPriority, mainTarget, party, npcs);
      if d.retarget.SetTo? {
        movementTarget := d.retarget.mtype;
      }
    }

    /**
     * The objective part of `moveLoop`: a message different from the last
     * one is shown, cut to 12 characters, and stops the current move; an
     * objective place is walked to.
     */
    method ShowObjective(objective: Option<Movement.Objective>) returns (actions: seq<MoveAction>)
      modifies this`lastMessage
      ensures actions == ObjectiveActions(old(lastMessage), objective)
      ensures lastMessage == if objective.Some? then Some(objective.value.message) else old(lastMessage)
    {
      actions := [];
      if objective.Some? {
        var o := objective.value;
        if lastMessage != Some(o.message) {
          actions := actions + [SetMessage(Truncate(o.message, 12)), Stop];
        }
        lastMessage := Some(o.message);
        if o.target.Some? {
          actions := actions + [SaferMove(o.target.value)];
        }
      }
    }

    /** Holding position or smart-moving: stop and drop the movement queue on sight of a stop-on-sight focus. */
    method HoldStep(w: World, targets: seq<Entity>) returns (actions: seq<MoveAction>)
      modifies this`movementQueue
      ensures StopsOnSight(targetPriority, movementTarget, targets, w.me) ==> actions == [Stop] && movementQueue == []
      ensures !StopsOnSight(targetPriority, movementTarget, targets, w.me) ==>
        actions == [] && movementQueue == old(movementQueue)
    {
      actions := [];
      if StopsOnSight(targetPriority, movementTarget, targets, w.me) {
        actions := [Stop];
        movementQueue := [];
      }
    }

    /**
     * One tick of `moveLoop`: evaluate the movement cascade and show its
     * objective, pick and focus this tick's target, then either hold (run
     * again after 250 ms) or kite and approach as the class does (run again
     * after max(250, ping)). The cascade's TypeError ends the tick with a
     * 250 ms delay.
     */
    method MoveStep(w: World, env: Surroundings) returns (d: Movement.Decision, actions: seq<MoveAction>, delay: int)
      modifies this`movementTarget, this`lastMessage, this`movementQueue
      ensures d == Movement.GetMovementTarget(MoveViewOf(w, env), old(targetPriority), old(mainTarget), old(party), old(npcs))
      ensures movementTarget == (if d.retarget.SetTo? then d.retarget.mtype else old(movementTarget))
      ensures d.MainTargetMissing? ==>
        actions == [] && delay == 250 && lastMessage == old(lastMessage) && movementQueue == old(movementQueue)
      ensures d.Decided? ==> actions == ObjectiveActions(old(lastMessage), d.objective) + ReactActions(w, env)
      ensures movementQueue ==
        if d.Decided? && (holdPosition || w.smartMoving)
           && StopsOnSight(targetPriority, movementTarget, Select(Ctx(w), w.entities, 1), w.me)
        then [] else old(movementQueue)
      ensures d.Decided? && d.objective.Some? ==> lastMessage == Some(d.objective.value.message)
      ensures d.Decided? && d.objective.None? ==> lastMessage == old(lastMessage)
      ensures d.Decided? && (holdPosition || w.smartMoving) ==> delay == 250
      ensures d.Decided? && !(holdPosition || w.smartMoving) ==> delay == Policies.Max(250, w.me.ping)
      ensures delay >= 250
    {
      d := GetMovementTarget(w, env);
      if d.MainTargetMissing? {
        return d, [], 250;
      }
      actions := ShowObjective(d.objective);
      var react;
      react, delay := ReactStep(w, env);
      actions := actions + react;
    }

    /**
     * The calls after the objective: change target to the focus, then stop
     * on sight of it when holding position or smart-moving, otherwise the
     * default movements.
     */
    function ReactActions(w: World, env: Surroundings): seq<MoveAction>
      reads this`targetPriority, this`mainTarget, this`movementTarget, this`holdPosition
    {
      var targets := Select(Ctx(w), w.entities, 1);
      (if targets == [] then [] else [ChangeTarget(targets[0])])
      + (if holdPosition || w.smartMoving
         then (if StopsOnSight(targetPriority, movementTarget, targets, w.me) then [Stop] else [])
         else DefaultActions(w, env))
    }

    /**
     * The rest of a move tick once the objective is shown: focus the best
     * target, then either stop on sight of it (holding position or
     * smart-moving) or make the default movements.
     */
    method ReactStep(w: World, env: Surroundings) returns (actions: seq<MoveAction>, delay: int)
      modifies this`movementQueue
      ensures actions == ReactActions(w, env)
      ensures movementQueue ==
        if (holdPosition || w.smartMoving) && StopsOnSight(targetPriority, movementTarget, Select(Ctx(w), w.entities, 1), w.me)
        then [] else old(movementQueue)
      ensures delay == if holdPosition || w.smartMoving then 250 else Policies.Max(250, w.me.ping)
    {
      var targets, focus := GetTargets(w, 1);
      actions := [];
      if focus.Some? {
        actions := [ChangeTarget(focus.value)];
      }
      if holdPosition || w.smartMoving {
        var stop := HoldStep(w, targets);
        actions := actions + stop;
        delay := 250;
      } else {
        var moves := DefaultMoves(w, env);
        actions := actions + moves;
        delay := Policies.Max(250, w.me.ping);
      }
    }

    /** One tick of `attackLoop`: the gate over this tick's focus. */
    method AttackStep(w: World) returns (a: Policies.AttackAction, focus: Option<Entity>)
      ensures var targets := Select(Ctx(w), w.entities, 1);
        && a == Policies.AttackGate(w, targets, targetPriority, holdAttack)
        && focus == (if targets == [] then None else Some(targets[0]))
        && (a.Strike? ==> focus == Some(a.target) && Eligible(Ctx(w), a.target) && a.target in w.entities)
    {
      var targets;
      targets, focus := GetTargets(w, 1);
      a := Policies.AttackGate(w, targets, targetPriority, holdAttack);
    }
  }

  /** The monsters `avoidAttackingMonsters` considers: those targeting us, then our current target. */
  function Threats(w: World, env: Surroundings): seq<Entity>
  {
    Evasion.TargetingMe(w.entities, w.me.name) + (if env.current.Some? then [env.current.value] else [])
  }

  /** The default movements, as the escapes they settle on. */
  function DefaultActions(w: World, env: Surroundings): seq<MoveAction>
  {
    (if Kites(w.me.ctype) then [AvoidAggro(Evasion.AggroEscape(w.entities, w.me.name, env.canMove))] else [])
    + [AvoidAttacking(Evasion.AttackEscape(Threats(w, env), w.me, env.oneShot, env.canMove))]
    + (if Approaches(w.me.ctype) then [MoveToMonster] else [])
  }

  /**
   * The default movements of `moveLoop`: rangers, mages and priests step
   * away from aggressive monsters, everyone kites monsters attacking them,
   * and the fighting classes approach their target.
   */
  method DefaultMoves(w: World, env: Surroundings) returns (actions: seq<MoveAction>)
    ensures actions == DefaultActions(w, env)
    ensures |actions| == (if Kites(w.me.ctype) then 1 else 0) + 1 + (if Approaches(w.me.ctype) then 1 else 0)
    ensures Kites(w.me.ctype) ==> actions[0] == AvoidAggro(Evasion.AggroEscape(w.entities, w.me.name, env.canMove))
    ensures var k := if Kites(w.me.ctype) then 1 else 0;
      actions[k] == AvoidAttacking(Evasion.AttackEscape(Threats(w, env), w.me, env.oneShot, env.canMove))
    ensures Approaches(w.me.ctype) ==> actions[|actions| - 1] == MoveToMonster
  {
    actions := [];
    if Kites(w.me.ctype) {
      var escape := Evasion.AvoidAggroMonsters(w.entities, w.me.name, env.canMove);
      actions := actions + [AvoidAggro(escape)];
    }
    var escape := Evasion.AvoidAttackingMonsters(w.entities, env.current, w.me, env.oneShot, env.canMove);
    actions := actions + [AvoidAttacking(escape)];
    if Approaches(w.me.ctype) {
      actions := actions + [MoveToMonster];
    }
  }

  /** The last loop of `getTargets`: dequeue while fewer than `n` targets are taken. */
  method Dequeue(queue: seq<Scored>, n: nat) returns (targets: seq<Entity>)
    ensures targets == EntitiesOf(Take(queue, n))
  {
    var q := queue;
    targets := [];
    var k := 0;
    while |targets| < n && |q| > 0
      invariant 0 <= k <= n && k <= |queue|
      invariant q == queue[k..]
      invariant targets == EntitiesOf(queue[..k])
    {
      assert queue[..k + 1] == queue[..k] + [queue[k]];
      targets := targets + [q[0].e];
      q := q[1..];
      k := k + 1;
    }
    assert queue[..k] == Take(queue, n);
  }
}
