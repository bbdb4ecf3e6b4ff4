/**
 * Kiting: stepping away from an aggressive monster that is about to reach
 * us (`avoidAggroMonsters`), and from a monster attacking us that we can
 * outrun and outrange (`avoidAttackingMonsters`), sweeping the escape
 * direction until a reachable point is found.
 *
 * Directions are not computed: `canMove(e, d, o)` says whether the point at
 * distance `d` from us, directly away from `e` turned by `o` degrees, can be
 * walked to in a straight line.
 */
module Evasion {
  import opened Wrappers
  import opened Game

  /** The outcome of one avoidance step. */
  datatype Escape =
    | NoThreat
    | Flee(from: Entity, distance: real, offset: int, moved: bool)

  /** The monster chosen so far (an index into the scanned list) and its distance value. */
  datatype Pick = Pick(index: Option<nat>, distance: real)

  // ---------------------------------------------------------------------
  // Aggressive monsters

  /** An aggressive monster that targets nobody or us. */
  predicate AggroCandidate(e: Entity, myName: string)
  {
    e.kind == Monster && e.aggro != 0.0 && (e.target.None? || e.target == Some(myName))
  }

  /** How far inside its reach (the larger of 60 and 1.5 times its speed) we are. */
  function AggroMargin(e: Entity): real
  {
    var reach := if 60.0 >= 1.5 * e.speed as real then 60.0 else 1.5 * e.speed as real;
    reach - e.dist
  }

  /** The candidate we are deepest inside the reach of; the first such on ties. */
  function AggroPick(es: seq<Entity>, myName: string): Pick
  {
    if es == [] then Pick(None, 0.0)
    else
      var p := AggroPick(es[..|es| - 1], myName);
      var e := es[|es| - 1];
      if AggroCandidate(e, myName) && !(AggroMargin(e) < 0.0) && AggroMargin(e) > p.distance
      then Pick(Some(|es| - 1), AggroMargin(e))
      else p
  }

  /**
   * The aggressive monster chosen is the first one with the largest positive
   * margin; none is chosen exactly when no candidate has a positive margin.
   */
  lemma {:induction false} AggroPickIsFirstMax(es: seq<Entity>, myName: string)
    ensures var p := AggroPick(es, myName);
      && p.distance >= 0.0
      && (p.index.None? ==> p.distance == 0.0)
      && (forall i :: 0 <= i < |es| && AggroCandidate(es[i], myName) ==> AggroMargin(es[i]) <= p.distance)
      && (p.index.Some? ==>
            && p.index.value < |es|
            && AggroCandidate(es[p.index.value], myName)
            && AggroMargin(es[p.index.value]) == p.distance > 0.0
            && forall i :: 0 <= i < p.index.value && AggroCandidate(es[i], myName) ==> AggroMargin(es[i]) < p.distance)
  {
    if es != [] {
      var init := es[..|es| - 1];
      AggroPickIsFirstMax(init, myName);
      assert forall i :: 0 <= i < |init| ==> init[i] == es[i];
    }
  }

  /** The selection loop of `avoidAggroMonsters`. */
  method ChooseAggroThreat(es: seq<Entity>, myName: string) returns (close: Option<Entity>, moveDistance: real)
    ensures var p := AggroPick(es, myName);
      && moveDistance == p.distance
      && (close.None? <==> p.index.None?)
      && (p.index.Some? ==> p.index.value < |es| && close == Some(es[p.index.value]))
  {
    close := None;
    moveDistance := 0.0;
    ghost var idx: Option<nat> := None;
    var i := 0;
    while i < |es|
      invariant 0 <= i <= |es|
      invariant AggroPick(es[..i], myName) == Pick(idx, moveDistance)
      invariant close.None? <==> idx.None?
      invariant idx.Some? ==> idx.value < i && close == Some(es[idx.value])
    {
      assert es[..i + 1][..i] == es[..i];
      var e := es[i];
      if e.kind == Monster && e.aggro != 0.0 && !(e.target.Some? && e.target != Some(myName)) {
        var d := AggroMargin(e);
        if !(d < 0.0) && d > moveDistance {
          close := Some(e);
          moveDistance := d;
          idx := Some(i);
        }
      }
      i := i + 1;
    }
    assert es[..i] == es;
  }

  /**
   * The escape `avoidAggroMonsters` settles on: none without a chosen
   * monster, otherwise straight away from it by its margin, moving only when
   * that point is reachable.
   */
  function AggroEscape(es: seq<Entity>, myName: string, canMove: (Entity, real, int) -> bool): (r: Escape)
    ensures var p := AggroPick(es, myName);
      && (r.NoThreat? <==> p.index.None?)
      && (r.Flee? ==>
            && AggroCandidate(r.from, myName)
            && r.distance == AggroMargin(r.from) > 0.0
            && r.offset == 0
            && r.moved == canMove(r.from, r.distance, 0)
            && forall i :: 0 <= i < |es| && AggroCandidate(es[i], myName) ==> AggroMargin(es[i]) <= r.distance)
  {
    var p := AggroPick(es, myName);
    if p.index.None? then NoThreat
    else
      AggroPickIsFirstMax(es, myName);
      var e := es[p.index.value];
      Flee(e, p.distance, 0, canMove(e, p.distance, 0))
  }

  /** `avoidAggroMonsters`: step straight away from the chosen monster when that point is reachable. */
  method AvoidAggroMonsters(es: seq<Entity>, myName: string, canMove: (Entity, real, int) -> bool) returns (r: Escape)
    ensures r == AggroEscape(es, myName, canMove)
    ensures var p := AggroPick(es, myName);
      && (r.NoThreat? <==> p.index.None?)
      && (p.index.Some? ==>
            p.index.value < |es| &&
            r == Flee(es[p.index.value], p.distance, 0, canMove(es[p.index.value], p.distance, 0)))
  {
    var close, moveDistance := ChooseAggroThreat(es, myName);
    if close.None? {
      return NoThreat;
    }
    r := Flee(close.value, moveDistance, 0, canMove(close.value, moveDistance, 0));
  }

  // ---------------------------------------------------------------------
  // Monsters attacking us

  /** The entities targeting us by name, in iteration order. */
  function TargetingMe(es: seq<Entity>, myName: string): seq<Entity>
  {
    if es == [] then []
    else
      var last := es[|es| - 1];
      TargetingMe(es[..|es| - 1], myName) + (if last.target == Some(myName) then [last] else [])
  }

  lemma {:induction false} TargetingMeExact(es: seq<Entity>, myName: string)
    ensures forall e :: e in TargetingMe(es, myName) <==> e in es && e.target == Some(myName)
  {
    if es != [] {
      TargetingMeExact(es[..|es| - 1], myName);
      assert es == es[..|es| - 1] + [es[|es| - 1]];
    }
  }

  /** How long we wait before moving again: `ping` seconds, but at least half a second. */
  function Latency(me: Me): real
  {
    if me.ping as real * 0.001 >= 0.5 then me.ping as real * 0.001 else 0.5
  }

  /**
   * A monster worth kiting: we are at least as fast, it can reach us before
   * we react, we cannot kill it in one hit, and its range does not exceed
   * ours. `oneShot` is the damage estimate, computed outside.
   */
  predicate Kiteable(e: Entity, me: Me, oneShot: Entity -> bool)
  {
    && !(e.speed > me.speed)
    && !(e.dist > e.range as real + (e.speed + me.speed) as real * Latency(me))
    && !oneShot(e)
    && !(e.range > me.range)
  }

  /**
   * The kiteable monster the loop settles on. A candidate replaces the one
   * chosen so far whenever it is at least as far away, so the loop keeps
   * the farthest such monster (the last one on ties).
   */
  function ThreatPick(ts: seq<Entity>, me: Me, oneShot: Entity -> bool): (p: Pick)
    ensures p.index.Some? ==> p.index.value < |ts|
  {
    if ts == [] then Pick(None, 0.0)
    else
      var p := ThreatPick(ts[..|ts| - 1], me, oneShot);
      var t := ts[|ts| - 1];
      if Kiteable(t, me, oneShot) && !(t.dist < p.distance) then Pick(Some(|ts| - 1), t.dist) else p
  }

  /**
   * The monster kited from is the last of the farthest kiteable ones (at a
   * non-negative distance); none is chosen exactly when every kiteable
   * monster reports a negative distance.
   */
  lemma {:induction false} ThreatPickIsLastFarthest(ts: seq<Entity>, me: Me, oneShot: Entity -> bool)
    ensures var p := ThreatPick(ts, me, oneShot);
      && p.distance >= 0.0
      && (p.index.None? ==> p.distance == 0.0)
      && (p.index.None? <==> forall i :: 0 <= i < |ts| && Kiteable(ts[i], me, oneShot) ==> ts[i].dist < 0.0)
      && (forall i :: 0 <= i < |ts| && Kiteable(ts[i], me, oneShot) ==> ts[i].dist <= p.distance)
      && (p.index.Some? ==>
            && p.index.value < |ts|
            && Kiteable(ts[p.index.value], me, oneShot)
            && ts[p.index.value].dist == p.distance
            && forall i :: p.index.value < i < |ts| && Kiteable(ts[i], me, oneShot) ==> ts[i].dist < p.distance)
  {
    if ts != [] {
      var init := ts[..|ts| - 1];
      ThreatPickIsLastFarthest(init, me, oneShot);
      assert forall i :: 0 <= i < |init| ==> init[i] == ts[i];
    }
  }

  /** The selection loop of `avoidAttackingMonsters`. */
  method ChooseAttackThreat(ts: seq<Entity>, me: Me, oneShot: Entity -> bool) returns (minTarget: Option<Entity>, minDistance: real)
    ensures var p := ThreatPick(ts, me, oneShot);
      && minDistance == p.distance
      && (minTarget.None? <==> p.index.None?)
      && (p.index.Some? ==> p.index.value < |ts| && minTarget == Some(ts[p.index.value]))
  {
    minTarget := None;
    minDistance := 0.0;
    ghost var idx: Option<nat> := None;
    var i := 0;
    while i < |ts|
      invariant 0 <= i <= |ts|
      invariant ThreatPick(ts[..i], me, oneShot) == Pick(idx, minDistance)
      invariant minTarget.None? <==> idx.None?
      invariant idx.Some? ==> idx.value < i && minTarget == Some(ts[idx.value])
    {
      assert ts[..i + 1][..i] == ts[..i];
      var t := ts[i];
      var d := t.dist;
      if !(t.speed > me.speed)
         && !(d > t.range as real + (t.speed + me.speed) as real * Latency(me))
         && !oneShot(t)
         && !(d < minDistance)
         && !(t.range > me.range)
      {
        minDistance := d;
        minTarget := Some(t);
        idx := Some(i);
      }
      i := i + 1;
    }
    assert ts[..i] == ts;
  }

  /**
   * The `k`-th direction tried, in degrees off straight away: 0, 1, -1, 2,
   * -2, ..., 179, -179 and finally 180.
   */
  function SweepOffset(k: nat): int
  {
    if k % 2 == 1 then (k + 1) / 2 else -(k / 2)
  }

  /** Where in the sweep a direction comes: the inverse of `SweepOffset`. */
  function SweepIndex(d: int): (k: nat)
    requires -179 <= d <= 180
    ensures k < 360 && SweepOffset(k) == d
  {
    if d > 0 then 2 * d - 1 else -2 * d
  }

  /**
   * The sweep tries 360 distinct directions, each whole degree of the
   * circle once, never a wider turn before a narrower one.
   */
  lemma SweepCoversCircle()
    ensures SweepOffset(359) == 180
    ensures forall k :: 0 <= k < 360 ==> -179 <= SweepOffset(k) <= 180 && SweepIndex(SweepOffset(k)) == k
    ensures forall j, k :: 0 <= j < k < 360 ==> SweepOffset(j) != SweepOffset(k)
    ensures forall j, k :: 0 <= j <= k ==> Abs(SweepOffset(j)) <= Abs(SweepOffset(k))
  {
  }

  function Abs(x: int): nat
  {
    if x < 0 then -x else x
  }

  /**
   * Where the sweep away from `from` by `d` stops, searching from the
   * `k`-th direction on: the first reachable direction, or the last one
   * (180 degrees) when none before it is.
   */
  function FirstFree(canMove: (Entity, real, int) -> bool, from: Entity, d: real, k: nat): (j: nat)
    requires k < 360
    ensures k <= j < 360
    decreases 359 - k
  {
    if k == 359 || canMove(from, d, SweepOffset(k)) then k else FirstFree(canMove, from, d, k + 1)
  }

  /** The sweep stops at the first reachable direction: every direction before it is blocked. */
  lemma {:induction false} FirstFreeIsFirst(canMove: (Entity, real, int) -> bool, from: Entity, d: real, k: nat)
    requires k < 360
    ensures var j := FirstFree(canMove, from, d, k);
      && (forall i :: k <= i < j ==> !canMove(from, d, SweepOffset(i)))
      && (j < 359 ==> canMove(from, d, SweepOffset(j)))
    decreases 359 - k
  {
    if k < 359 && !canMove(from, d, SweepOffset(k)) {
      FirstFreeIsFirst(canMove, from, d, k + 1);
    }
  }

  /**
   * Turn the escape direction until a reachable point is found or every
   * direction has been tried; `tries` counts the turns made.
   */
  method EscapeSweep(canMove: (Entity, real, int) -> bool, from: Entity, d: real) returns (offset: int, tries: nat, moved: bool)
    ensures tries == FirstFree(canMove, from, d, 0) && offset == SweepOffset(tries)
    ensures moved == canMove(from, d, offset)
    ensures forall j :: 0 <= j < tries ==> !canMove(from, d, SweepOffset(j))
    ensures !moved ==> forall j :: 0 <= j < 360 ==> !canMove(from, d, SweepOffset(j))
  {
    offset := 0;
    tries := 0;
    while !canMove(from, d, offset) && offset < 180
      invariant tries < 360 && offset == SweepOffset(tries)
      invariant tries < 359 <==> offset < 180
      invariant FirstFree(canMove, from, d, tries) == FirstFree(canMove, from, d, 0)
      invariant forall j :: 0 <= j < tries ==> !canMove(from, d, SweepOffset(j))
      decreases 359 - tries
    {
      if offset <= 0 {
        offset := -offset + 1;
      } else {
        offset := -offset;
      }
      tries := tries + 1;
    }
    moved := canMove(from, d, offset);
  }

  /** The loop of `avoidAttackingMonsters` listing the entities targeting us. */
  method CollectTargetingMe(es: seq<Entity>, myName: string) returns (attacking: seq<Entity>)
    ensures attacking == TargetingMe(es, myName)
  {
    attacking := [];
    var i := 0;
    while i < |es|
      invariant 0 <= i <= |es|
      invariant attacking == TargetingMe(es[..i], myName)
    {
      assert es[..i + 1][..i] == es[..i];
      if es[i].target == Some(myName) {
        attacking := attacking + [es[i]];
      }
      i := i + 1;
    }
    assert es[..i] == es;
  }

  /**
   * The escape `avoidAttackingMonsters` settles on: none without a monster
   * to kite, otherwise away from it by its range plus its speed less half
   * its distance, in the first reachable direction of the sweep.
   */
  function AttackEscape(ts: seq<Entity>, me: Me, oneShot: Entity -> bool, canMove: (Entity, real, int) -> bool): Escape
  {
    var p := ThreatPick(ts, me, oneShot);
    if p.index.None? then NoThreat
    else
      var t := ts[p.index.value];
      var d := t.range as real + t.speed as real - p.distance / 2.0;
      var k := FirstFree(canMove, t, d, 0);
      Flee(t, d, SweepOffset(k), canMove(t, d, SweepOffset(k)))
  }

  /** What the attack escape means: the pick, its distance and the first free direction. */
  lemma AttackEscapeSound(ts: seq<Entity>, me: Me, oneShot: Entity -> bool, canMove: (Entity, real, int) -> bool)
    ensures var p := ThreatPick(ts, me, oneShot);
      var r := AttackEscape(ts, me, oneShot, canMove);
      && (r.NoThreat? <==> p.index.None?)
      && (p.index.Some? ==>
            && p.index.value < |ts|
            && r.Flee?
            && r.from == ts[p.index.value]
            && r.distance == r.from.range as real + r.from.speed as real - p.distance / 2.0
            && r.moved == canMove(r.from, r.distance, r.offset)
            && (exists k :: 0 <= k < 360 && r.offset == SweepOffset(k)
                  && (forall j :: 0 <= j < k ==> !canMove(r.from, r.distance, SweepOffset(j)))
                  && (k < 359 ==> r.moved))
            && (!r.moved ==> forall j :: 0 <= j < 360 ==> !canMove(r.from, r.distance, SweepOffset(j))))
  {
    var p := ThreatPick(ts, me, oneShot);
    if p.index.Some? {
      var t := ts[p.index.value];
      var d := t.range as real + t.speed as real - p.distance / 2.0;
      var k := FirstFree(canMove, t, d, 0);
      SweepStopsAtFirstFree(canMove, t, d);
      assert AttackEscape(ts, me, oneShot, canMove) == Flee(t, d, SweepOffset(k), canMove(t, d, SweepOffset(k)));
    }
  }

  /** The sweep's stopping direction is the first free one, and it is blocked only when all are. */
  lemma SweepStopsAtFirstFree(canMove: (Entity, real, int) -> bool, from: Entity, d: real)
    ensures var k := FirstFree(canMove, from, d, 0);
      && (forall j :: 0 <= j < k ==> !canMove(from, d, SweepOffset(j)))
      && (k < 359 ==> canMove(from, d, SweepOffset(k)))
      && (!canMove(from, d, SweepOffset(k)) ==> forall j :: 0 <= j < 360 ==> !canMove(from, d, SweepOffset(j)))
  {
    FirstFreeIsFirst(canMove, from, d, 0);
  }

  /**
   * The second half of `avoidAttackingMonsters`: pick the monster to kite
   * from, then move directly away by its range plus its speed less half its
   * distance, turning until the point is reachable.
   */
  method KiteAway(ts: seq<Entity>, me: Me, oneShot: Entity -> bool, canMove: (Entity, real, int) -> bool)
    returns (r: Escape)
    ensures r == AttackEscape(ts, me, oneShot, canMove)
  {
    var minTarget, minDistance := ChooseAttackThreat(ts, me, oneShot);
    if minTarget.None? {
      return NoThreat;
    }
    var t := minTarget.value;
    var moveDistance := t.range as real + t.speed as real - minDistance / 2.0;
    var offset, tries, moved := EscapeSweep(canMove, t, moveDistance);
    r := Flee(t, moveDistance, offset, moved);
  }

  /**
   * `avoidAttackingMonsters`: kite away from the monsters targeting us and
   * from our current target.
   */
  method AvoidAttackingMonsters(es: seq<Entity>, current: Option<Entity>, me: Me,
                                oneShot: Entity -> bool, canMove: (Entity, real, int) -> bool)
    returns (r: Escape)
    ensures r == AttackEscape(TargetingMe(es, me.name) + (if current.Some? then [current.value] else []), me, oneShot, canMove)
  {
    var attacking := CollectTargetingMe(es, me.name);
    if current.Some? {
      attacking := attacking + [current.value];
    } else {
      assert attacking + [] == attacking;
    }
    r := KiteAway(attacking, me, oneShot, canMove);
  }
}
