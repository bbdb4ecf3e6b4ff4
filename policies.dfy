/**
 * The one-step decisions of the bot's periodic loops: healing, attacking,
 * scaring monsters off, whether a monster hunt is worth taking, and the
 * delay after which each loop runs again.
 */
module Policies {
  import opened Wrappers
  import opened Game
  import opened Dict
  import opened Targeting
  import opened Functions
  import Movement

  function Max(a: int, b: int): int { if a >= b then a else b }

  // ---------------------------------------------------------------------
  // Healing

  predicate IsHpPot(it: Item) { it.name == "hpot0" || it.name == "hpot1" }

  predicate IsMpPot(it: Item) { it.name == "mpot0" || it.name == "mpot1" }

  /** Which potion kind a search looks for. */
  datatype PotKind = HpPot | MpPot

  predicate IsPot(k: PotKind, it: Item)
  {
    match k
    case HpPot => IsHpPot(it)
    case MpPot => IsMpPot(it)
  }

  /** The potion of the kind in the highest-numbered slot of `items`. */
  function LastPot(items: seq<Option<Item>>, k: PotKind): Option<Item>
  {
    if items == [] then None
    else
      var later := LastPot(items[1..], k);
      if later.Some? then later
      else if items[0].Some? && IsPot(k, items[0].value) then items[0]
      else None
  }

  /** The potion found sits in a slot after which no potion of its kind follows; none means no such potion. */
  lemma {:induction false} LastPotIsLast(items: seq<Option<Item>>, k: PotKind)
    ensures LastPot(items, k).Some? ==>
      exists i :: 0 <= i < |items| && items[i] == LastPot(items, k) && IsPot(k, items[i].value)
        && forall j :: i < j < |items| && items[j].Some? ==> !IsPot(k, items[j].value)
    ensures LastPot(items, k).None? ==> forall j :: 0 <= j < |items| && items[j].Some? ==> !IsPot(k, items[j].value)
  {
    if items != [] {
      var rest := items[1..];
      LastPotIsLast(rest, k);
      assert forall j :: 1 <= j < |items| ==> items[j] == rest[j - 1];
      if LastPot(rest, k).Some? {
        var i :| 0 <= i < |rest| && rest[i] == LastPot(rest, k) && IsPot(k, rest[i].value)
          && forall j :: i < j < |rest| && rest[j].Some? ==> !IsPot(k, rest[j].value);
        assert items[i + 1] == rest[i];
      }
    }
  }

  /** A suffix that holds a potion of the kind decides the search of the whole inventory. */
  lemma {:induction false} LastPotSuffix(items: seq<Option<Item>>, k: PotKind, i: nat)
    requires i <= |items|
    requires LastPot(items[i..], k).Some?
    ensures LastPot(items, k) == LastPot(items[i..], k)
  {
    if i > 0 {
      LastPotSuffix(items[1..], k, i - 1);
      assert items[1..][i - 1..] == items[i..];
    }
  }

  /** The potion search of `healLoop`: walk the inventory from the end, stopping once both kinds are found. */
  method FindPotions(items: seq<Option<Item>>) returns (hpPot: Option<Item>, mpPot: Option<Item>)
    ensures hpPot == LastPot(items, HpPot)
    ensures mpPot == LastPot(items, MpPot)
  {
    hpPot := None;
    mpPot := None;
    var i := |items|;
    while i > 0
      invariant 0 <= i <= |items|
      invariant hpPot == LastPot(items[i..], HpPot)
      invariant mpPot == LastPot(items[i..], MpPot)
    {
      assert items[i - 1..][1..] == items[i..];
      var item := items[i - 1];
      i := i - 1;
      if item.Some? {
        if hpPot.None? && IsHpPot(item.value) {
          hpPot := item;
        } else if mpPot.None? && IsMpPot(item.value) {
          mpPot := item;
        }
        if hpPot.Some? && mpPot.Some? {
          LastPotSuffix(items, HpPot, i);
          LastPotSuffix(items, MpPot, i);
          return;
        }
      }
    }
    assert items[0..] == items;
  }

  /** The HP deficit the potion found calls for: 200 for `hpot0`, 400 for `hpot1`, or HP below 50. */
  predicate HpThreshold(me: Me, pot: Option<Item>)
  {
    || pot.None?
    || (pot.value.name == "hpot0" && (me.hp <= me.maxHp - 200 || me.hp < 50))
    || (pot.value.name == "hpot1" && (me.hp <= me.maxHp - 400 || me.hp < 50))
  }

  /** The MP deficit the potion found calls for: 300 for `mpot0`, 500 for `mpot1`, or MP below 50. */
  predicate MpThreshold(me: Me, pot: Option<Item>)
  {
    || pot.None?
    || (pot.value.name == "mpot0" && (me.mp <= me.maxMp - 300 || me.mp < 50))
    || (pot.value.name == "mpot1" && (me.mp <= me.maxMp - 500 || me.mp < 50))
  }

  /** `a / b` as JavaScript divides numbers; it is 1 exactly when `a == b`. */
  function Ratio(a: int, b: int): (r: real)
    requires b > 0
    ensures r == 1.0 <==> a == b
    ensures r * b as real == a as real
  {
    a as real / b as real
  }

  function HpRatio(me: Me): real requires me.maxHp > 0 { Ratio(me.hp, me.maxHp) }

  function MpRatio(me: Me): real requires me.maxMp > 0 { Ratio(me.mp, me.maxMp) }

  /** What one heal tick does. */
  datatype HealAction = Respawn | Wait | UseHp | UseMp | Idle

  /**
   * The heal rule: restore HP when its ratio is no higher than MP's, HP is
   * not full and the potion's threshold is met; otherwise restore MP when
   * it is not full and its threshold is met.
   */
  function HealChoice(me: Me, hpPot: Option<Item>, mpPot: Option<Item>): (a: HealAction)
    requires me.maxHp > 0 && me.maxMp > 0
    ensures a == UseHp || a == UseMp || a == Idle
    ensures a == UseHp ==> me.hp != me.maxHp && HpRatio(me) <= MpRatio(me) && HpThreshold(me, hpPot)
    ensures a == UseMp ==> me.mp != me.maxMp && MpThreshold(me, mpPot)
    ensures a == UseMp ==> me.hp == me.maxHp || HpRatio(me) > MpRatio(me) || !HpThreshold(me, hpPot)
    ensures a == Idle ==> (me.hp == me.maxHp || HpRatio(me) > MpRatio(me) || !HpThreshold(me, hpPot))
                          && (me.mp == me.maxMp || !MpThreshold(me, mpPot))
  {
    var hpRatio := HpRatio(me);
    var mpRatio := MpRatio(me);
    if hpRatio <= mpRatio && hpRatio != 1.0 && HpThreshold(me, hpPot) then UseHp
    else if mpRatio != 1.0 && MpThreshold(me, mpPot) then UseMp
    else Idle
  }

  /**
   * With HP at 40% and MP at 90% of their maxima and no potion in the
   * inventory, the tick restores HP; with an `hpot1` it does so only once
   * at least 400 HP are missing.
   */
  lemma LowHpIsHealedFirst(me: Me)
    requires me.maxHp == 1000 && me.hp == 400 && me.maxMp == 1000 && me.mp == 900
    ensures HealChoice(me, None, None) == UseHp
    ensures HealChoice(me, Some(Item("hpot1", None)), None) == UseHp
    ensures HealChoice(me.(hp := 700), Some(Item("hpot1", None)), Some(Item("mpot0", None))) == Idle
  {
  }

  /**
   * One tick of `healLoop`: respawn when dead, wait while the potion
   * cooldown runs, else apply the heal rule to the last potions in the
   * inventory. `delay` is when the loop runs again.
   */
  method HealStep(w: World) returns (a: HealAction, delay: int)
    requires w.me.maxHp > 0 && w.me.maxMp > 0
    ensures w.me.rip ==> a == Respawn && delay == Max(CooldownMS(w, "use_town"), w.me.ping)
    ensures !w.me.rip && !IsAvailable(w, "use_hp") ==> a == Wait && delay == CooldownMS(w, "use_hp")
    ensures !w.me.rip && IsAvailable(w, "use_hp") ==>
      && a == HealChoice(w.me, LastPot(w.me.items, HpPot), LastPot(w.me.items, MpPot))
      && delay == Max(250, CooldownMS(w, "use_hp"))
    ensures delay >= w.me.ping
  {
    if w.me.rip {
      return Respawn, Max(CooldownMS(w, "use_town"), w.me.ping);
    } else if !IsAvailable(w, "use_hp") {
      return Wait, CooldownMS(w, "use_hp");
    }
    var hpPot, mpPot := FindPotions(w.me.items);
    a := HealChoice(w.me, hpPot, mpPot);
    delay := Max(250, CooldownMS(w, "use_hp"));
  }

  // ---------------------------------------------------------------------
  // Attacking

  datatype AttackAction = Strike(target: Entity) | Hold

  /** Holding attack applies to the focus unless it is attacking us. */
  predicate HeldBack(w: World, e: Entity, t: PriorityTable, holdAttack: bool)
  {
    || (w.smartMoving && InTable(t, e.mtype) && t[e.mtype.value].holdAttack && e.target != Some(w.me.name))
    || (holdAttack && e.target != Some(w.me.name))
  }

  /**
   * The gate of `attackLoop` over the focus (`targets` is the selection of
   * one target). A strike happens only with a focus in range, MP for the
   * attack, the attack off cooldown, not stoned and not held back.
   */
  function AttackGate(w: World, targets: seq<Entity>, t: PriorityTable, holdAttack: bool): (a: AttackAction)
    ensures a.Strike? ==>
      && targets != [] && a.target == targets[0]
      && IsAvailable(w, "attack")
      && !w.me.stoned && w.me.mp >= w.me.mpCost
      && a.target.dist <= w.me.range as real
      && (holdAttack ==> a.target.target == Some(w.me.name))
    ensures a == Hold <==>
      || targets == [] || w.me.stoned || w.me.mp < w.me.mpCost || !IsAvailable(w, "attack")
      || targets[0].dist > w.me.range as real || HeldBack(w, targets[0], t, holdAttack)
  {
    if || targets == []
       || w.me.stoned
       || w.me.mp < w.me.mpCost
       || !IsAvailable(w, "attack")
       || targets[0].dist > w.me.range as real
       || HeldBack(w, targets[0], t, holdAttack)
    then Hold
    else Strike(targets[0])
  }

  /**
   * When `attackLoop` runs again: after the attack cooldown (at least 50 ms)
   * when holding, and after the cooldown read when the attack settles
   * (`settled`), whether it succeeded or failed, after a strike.
   */
  function AttackRearm(w: World, a: AttackAction, settled: World): (delay: int)
    ensures a == Hold ==> delay == Max(50, CooldownMS(w, "attack")) && delay >= 50 && delay >= CooldownMS(w, "attack")
    ensures a.Strike? ==> delay == CooldownMS(settled, "attack")
    ensures delay >= w.me.ping || (a.Strike? && delay >= settled.me.ping)
  {
    if a == Hold then Max(50, CooldownMS(w, "attack")) else CooldownMS(settled, "attack")
  }

  /** A target that attacks us is struck even when holding attack, once the other gates pass. */
  lemma AttackersAreAlwaysAnswered(w: World, targets: seq<Entity>, t: PriorityTable, holdAttack: bool)
    requires targets != [] && targets[0].target == Some(w.me.name)
    requires !w.me.stoned && w.me.mp >= w.me.mpCost && IsAvailable(w, "attack")
    requires targets[0].dist <= w.me.range as real
    ensures AttackGate(w, targets, t, holdAttack) == Strike(targets[0])
  {
  }

  // ---------------------------------------------------------------------
  // Scaring monsters off

  /** One attacker is reason to scare: it kills us in two hits, we face three or more, or it is not a monster we hunt. */
  predicate Scary(e: Entity, count: nat, me: Me, t: PriorityTable)
  {
    e.attack * 2 > me.hp || count >= 3 || !InTable(t, e.mtype)
  }

  predicate WantsToScare(attackers: seq<Entity>, me: Me, t: PriorityTable)
  {
    exists i :: 0 <= i < |attackers| && Scary(attackers[i], |attackers|, me, t)
  }

  /** The `wantToScare` loop of `scareLoop`. */
  method WantToScare(attackers: seq<Entity>, me: Me, t: PriorityTable) returns (want: bool)
    ensures want == WantsToScare(attackers, me, t)
  {
    want := false;
    var i := 0;
    while i < |attackers|
      invariant 0 <= i <= |attackers|
      invariant forall j :: 0 <= j < i ==> !Scary(attackers[j], |attackers|, me, t)
    {
      var target := attackers[i];
      if target.attack * 2 > me.hp || |attackers| >= 3 || !InTable(t, target.mtype) {
        want := true;
        return;
      }
      i := i + 1;
    }
  }

  /** Three attackers are always reason enough; no attackers never are. */
  lemma ScareByCount(attackers: seq<Entity>, me: Me, t: PriorityTable)
    ensures |attackers| >= 3 ==> WantsToScare(attackers, me, t)
    ensures attackers == [] ==> !WantsToScare(attackers, me, t)
  {
    if |attackers| >= 3 {
      assert Scary(attackers[0], |attackers|, me, t);
    }
  }

  /**
   * What one scare tick does. `OrbMissing` is the TypeError raised, and
   * caught, when the orb slot is empty.
   */
  datatype ScareAction = NoScare | OrbMissing | Scare | EquipThenScare(index: nat)

  /** The scare skill is usable, we have 50 MP, and the attackers warrant it. */
  predicate ScareReady(w: World, t: PriorityTable)
  {
    IsAvailable(w, "scare") && w.me.mp >= 50 && WantsToScare(Attacking(w.entities, w.me.id, w.pvp), w.me, t)
  }

  /**
   * One tick of `scareLoop`: when ready, scare with the jacko orb if it is
   * equipped, else equip the first jacko in the inventory and scare, else
   * do nothing. The loop runs again after the scare cooldown.
   */
  method ScareStep(w: World, t: PriorityTable) returns (a: ScareAction, delay: int)
    ensures !ScareReady(w, t) ==> a == NoScare
    ensures ScareReady(w, t) ==>
      var orb := Get(w.me.slots, "orb");
      var jackos := Scan(w.me.items, Named("jacko"), 0);
      && (orb.None? || orb.value.None? ==> a == OrbMissing)
      && (orb.Some? && orb.value.Some? && orb.value.value.name == "jacko" ==> a == Scare)
      && (orb.Some? && orb.value.Some? && orb.value.value.name != "jacko" ==>
            if jackos == [] then a == NoScare else a == EquipThenScare(jackos[0].index))
    ensures a.EquipThenScare? ==>
      a.index < InventorySize && Occupied(w.me.items, a.index) && w.me.items[a.index].value.name == "jacko"
    ensures delay == Max(w.me.ping, CooldownMS(w, "scare")) && delay >= w.me.ping
  {
    delay := Max(w.me.ping, CooldownMS(w, "scare"));
    var attackers := GetAttackingEntities(w);
    var want := WantToScare(attackers, w.me, t);
    if !IsAvailable(w, "scare") || w.me.mp < 50 || !want {
      return NoScare, delay;
    }
    var orb := Get(w.me.slots, "orb");
    if orb.None? || orb.value.None? {
      return OrbMissing, delay;
    }
    if orb.value.value.name == "jacko" {
      a := Scare;
    } else {
      var items := FindItems(w.me.items, "jacko");
      if |items| > 0 {
        assert items[0] in items;
        a := EquipThenScare(items[0].index);
      } else {
        a := NoScare;
      }
    }
  }

  // ---------------------------------------------------------------------
  // Monster hunts

  /** Some party member runs a monster hunt on a monster we hunt. */
  predicate PartyHuntWeCanDo(party: Dict<PartyInfo>, t: PriorityTable)
  {
    exists i :: 0 <= i < |party| && party[i].1.s.monsterhunt.Some? && party[i].1.s.monsterhunt.value.id in t
  }

  /**
   * `canMonsterHunt`: never for a merchant; otherwise when we have no hunt,
   * when our hunt's monster is one we hunt, or when some party member's is.
   */
  method CanMonsterHunt(me: Me, t: PriorityTable, party: Dict<PartyInfo>) returns (r: bool)
    ensures r <==>
      me.ctype != "merchant" && (me.s.monsterhunt.None? || me.s.monsterhunt.value.id in t || PartyHuntWeCanDo(party, t))
  {
    if me.ctype == "merchant" {
      return false;
    }
    if me.s.monsterhunt.None? {
      return true;
    }
    if me.s.monsterhunt.value.id in t {
      return true;
    }
    var i := 0;
    while i < |party|
      invariant 0 <= i <= |party|
      invariant forall j :: 0 <= j < i ==> !(party[j].1.s.monsterhunt.Some? && party[j].1.s.monsterhunt.value.id in t)
    {
      var member := party[i].1;
      if member.s.monsterhunt.Some? && member.s.monsterhunt.value.id in t {
        return true;
      }
      i := i + 1;
    }
    return false;
  }

  lemma {:induction false} PartyHuntsFromPartyHuntWeCanDo(party: Dict<PartyInfo>, t: PriorityTable)
    ensures Movement.PartyHunts(party, t) != [] ==> PartyHuntWeCanDo(party, t)
  {
    if party != [] {
      PartyHuntsFromPartyHuntWeCanDo(party[1..], t);
      if PartyHuntWeCanDo(party[1..], t) {
        var i :| 0 <= i < |party[1..]| && party[1..][i].1.s.monsterhunt.Some? && party[1..][i].1.s.monsterhunt.value.id in t;
        assert party[i + 1] == party[1..][i];
      }
    }
  }

  /**
   * Any hunt the movement cascade would walk to is one that
   * `canMonsterHunt` admits: a non-merchant with a hunt target list is
   * able to hunt.
   */
  lemma HuntTargetsImplyCanHunt(me: Me, t: PriorityTable, party: Dict<PartyInfo>)
    requires me.ctype != "merchant"
    requires Movement.HuntTargets(me.s, t, party) != []
    ensures me.s.monsterhunt.None? || me.s.monsterhunt.value.id in t || PartyHuntWeCanDo(party, t)
  {
    PartyHuntsFromPartyHuntWeCanDo(party, t);
  }

  // ---------------------------------------------------------------------
  // Loop delays

  /** `mainLoop` runs again after the ping, but at least every 250 ms. */
  function MainLoopDelay(me: Me): (delay: int)
    ensures delay >= 250 && delay >= me.ping
    ensures delay == 250 || delay == me.ping
  {
    Max(250, me.ping)
  }
}
