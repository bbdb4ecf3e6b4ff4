/**
 * Target selection (`getTargets`): which visible entities are worth
 * attacking, the score of each, and the best-first order in which they come
 * out of the priority queue.
 */
module Targeting {
  import opened Wrappers
  import opened Game

  /**
   * One entry of the target priority table, keyed by monster type. The
   * optional `mapName`, `x`, `y` pin the place to look for that monster.
   */
  datatype PriorityEntry = PriorityEntry(
    priority: int,
    holdPosition: bool,
    holdAttack: bool,
    stopOnSight: bool,
    mapName: Option<string>,
    x: Option<real>,
    y: Option<real>)

  type PriorityTable = map<string, PriorityEntry>

  /** `targetPriority[mtype]` is set (an entity without a monster type never is). */
  predicate InTable(t: PriorityTable, mtype: Option<string>)
  {
    mtype.Some? && mtype.value in t
  }

  predicate TargetsMe(e: Entity, myName: string)
  {
    e.target == Some(myName)
  }

  /**
   * What one call of getTargets scores against: the table, our name and
   * attack, whether PvP is on, the ids party members target, the main
   * target and the pathfinder's movement target.
   */
  datatype Context = Context(
    table: PriorityTable,
    myName: string,
    myAttack: int,
    pvp: bool,
    claimed: seq<string>,
    mainTarget: string,
    movementTarget: Option<string>)

  /**
   * The entity survives both filters: it is in the table or attacking us,
   * and it is not a character while PvP is off.
   */
  predicate Eligible(c: Context, e: Entity)
  {
    && (InTable(c.table, e.mtype) || TargetsMe(e, c.myName))
    && (e.kind != Monster ==> !(!c.pvp && e.kind == Character))
  }

  /** A party member targets it and one of our hits would finish it. */
  predicate ClaimedAndLow(c: Context, e: Entity)
  {
    e.id in c.claimed && e.hp <= c.myAttack
  }

  /** The table priority of the entity's type, 0 without an entry. */
  function TablePriority(c: Context, e: Entity): int
  {
    if InTable(c.table, e.mtype) then c.table[e.mtype.value].priority else 0
  }

  /**
   * The score: table priority, -250 when claimed and low, +10 for the main
   * target, +500 for the movement target (an entity without a type matches
   * an unset movement target), +1000 when it targets us, minus the distance.
   */
  function Score(c: Context, e: Entity): real
  {
    var bonus :=
      (if ClaimedAndLow(c, e) then -250 else 0)
      + (if e.mtype == Some(c.mainTarget) then 10 else 0)
      + (if e.mtype == c.movementTarget then 500 else 0)
      + (if TargetsMe(e, c.myName) then 1000 else 0);
    (TablePriority(c, e) + bonus) as real - e.dist
  }

  /** A queue element: an entity with the priority it was enqueued under. */
  datatype Scored = Scored(score: real, e: Entity)

  /** The targets of the party members among the entities (the claimed list). */
  function Claimed(es: seq<Entity>, party: seq<string>): seq<string>
  {
    if es == [] then []
    else
      var last := es[|es| - 1];
      Claimed(es[..|es| - 1], party) + (if last.id in party && last.target.Some? then [last.target.value] else [])
  }

  /** The eligible entities with their scores, in iteration order. */
  function Candidates(c: Context, es: seq<Entity>): seq<Scored>
  {
    if es == [] then []
    else
      var last := es[|es| - 1];
      Candidates(c, es[..|es| - 1]) + (if Eligible(c, last) then [Scored(Score(c, last), last)] else [])
  }

  predicate SortedDesc(q: seq<Scored>)
  {
    forall i, j :: 0 <= i < j < |q| ==> q[i].score >= q[j].score
  }

  /**
   * Enqueue into a best-first queue: behind every element whose score is at
   * least as high, so that equal scores leave in insertion order.
   */
  function Enqueue(q: seq<Scored>, x: Scored): (r: seq<Scored>)
    ensures multiset(r) == multiset(q) + multiset{x}
  {
    if q == [] then [x]
    else if q[0].score >= x.score then
      assert q == [q[0]] + q[1..];
      [q[0]] + Enqueue(q[1..], x)
    else [x] + q
  }

  /** An element of the queue after enqueueing was in the queue or is the new one. */
  lemma EnqueueMembers(q: seq<Scored>, x: Scored, y: Scored)
    requires y in Enqueue(q, x)
    ensures y in q || y == x
  {
    assert y in multiset(Enqueue(q, x));
  }

  /** Enqueueing keeps the queue best-first. */
  lemma {:induction false} EnqueueSorted(q: seq<Scored>, x: Scored)
    requires SortedDesc(q)
    ensures SortedDesc(Enqueue(q, x))
  {
    if q != [] && q[0].score >= x.score {
      var rest := Enqueue(q[1..], x);
      EnqueueSorted(q[1..], x);
      forall y | y in rest ensures q[0].score >= y.score {
        EnqueueMembers(q[1..], x, y);
        if y != x {
          var k :| 0 <= k < |q[1..]| && q[1..][k] == y;
          assert q[k + 1] == y;
        }
      }
      var r := [q[0]] + rest;
      forall i, j | 0 <= i < j < |r| ensures r[i].score >= r[j].score {
        assert r[j] == rest[j - 1];
        assert r[j] in rest;
        if i > 0 {
          assert r[i] == rest[i - 1];
        }
      }
    }
  }

  /** The queue after enqueueing every candidate in order. */
  function Rank(cs: seq<Scored>): (q: seq<Scored>)
    ensures multiset(q) == multiset(cs)
  {
    if cs == [] then []
    else
      assert cs == cs[..|cs| - 1] + [cs[|cs| - 1]];
      Enqueue(Rank(cs[..|cs| - 1]), cs[|cs| - 1])
  }

  lemma {:induction false} RankSorted(cs: seq<Scored>)
    ensures SortedDesc(Rank(cs))
  {
    if cs != [] {
      RankSorted(cs[..|cs| - 1]);
      EnqueueSorted(Rank(cs[..|cs| - 1]), cs[|cs| - 1]);
    }
  }

  /** The first `n` elements of the queue (fewer when it is shorter). */
  function Take(q: seq<Scored>, n: nat): seq<Scored>
  {
    if n < |q| then q[..n] else q
  }

  function EntitiesOf(q: seq<Scored>): (r: seq<Entity>)
    ensures |r| == |q|
    ensures forall i :: 0 <= i < |q| ==> r[i] == q[i].e
  {
    if q == [] then [] else [q[0].e] + EntitiesOf(q[1..])
  }

  /** What getTargets returns: the best `n` candidates, best first. */
  function Select(c: Context, es: seq<Entity>, n: nat): seq<Entity>
  {
    EntitiesOf(Take(Rank(Candidates(c, es)), n))
  }

  /** Scanning one more entity enqueues it when it is eligible. */
  lemma RankStep(c: Context, es: seq<Entity>, i: nat)
    requires i < |es|
    ensures Rank(Candidates(c, es[..i + 1])) ==
      if Eligible(c, es[i]) then Enqueue(Rank(Candidates(c, es[..i])), Scored(Score(c, es[i]), es[i]))
      else Rank(Candidates(c, es[..i]))
  {
    var pre := es[..i + 1];
    assert pre[..|pre| - 1] == es[..i] && pre[|pre| - 1] == es[i];
    var cs := Candidates(c, es[..i]);
    var x := Scored(Score(c, es[i]), es[i]);
    CandidatesStep(c, pre);
    if Eligible(c, es[i]) {
      RankAppend(cs, x);
    } else {
      assert cs + [] == cs;
    }
  }

  lemma CandidatesStep(c: Context, es: seq<Entity>)
    requires es != []
    ensures Candidates(c, es) == Candidates(c, es[..|es| - 1])
      + (if Eligible(c, es[|es| - 1]) then [Scored(Score(c, es[|es| - 1]), es[|es| - 1])] else [])
  {
  }

  lemma RankAppend(cs: seq<Scored>, x: Scored)
    ensures Rank(cs + [x]) == Enqueue(Rank(cs), x)
  {
    assert (cs + [x])[..|cs|] == cs;
  }

  // ---------------------------------------------------------------------
  // Properties

  /** Every candidate is a visible, eligible entity carrying its own score. */
  lemma {:induction false} CandidatesSound(c: Context, es: seq<Entity>)
    ensures forall x :: x in Candidates(c, es) ==> x.e in es && Eligible(c, x.e) && x.score == Score(c, x.e)
  {
    if es != [] {
      CandidatesSound(c, es[..|es| - 1]);
      assert forall e :: e in es[..|es| - 1] ==> e in es;
    }
  }

  /** Every eligible visible entity is a candidate. */
  lemma {:induction false} CandidatesComplete(c: Context, es: seq<Entity>, e: Entity)
    requires e in es && Eligible(c, e)
    ensures Scored(Score(c, e), e) in Candidates(c, es)
  {
    var init := es[..|es| - 1];
    if e != es[|es| - 1] {
      assert es == init + [es[|es| - 1]];
      CandidatesComplete(c, init, e);
    }
  }

  /** The queue holds nothing exactly when no visible entity is eligible. */
  lemma CandidatesEmpty(c: Context, es: seq<Entity>)
    ensures Candidates(c, es) == [] <==> forall e :: e in es ==> !Eligible(c, e)
  {
    CandidatesSound(c, es);
    if Candidates(c, es) == [] {
      forall e | e in es ensures !Eligible(c, e) {
        if Eligible(c, e) {
          CandidatesComplete(c, es, e);
        }
      }
    } else {
      assert Candidates(c, es)[0] in Candidates(c, es);
    }
  }

  /** The elements of the ranked queue are the candidates. */
  lemma RankMembers(cs: seq<Scored>)
    ensures forall x :: x in Rank(cs) <==> x in cs
  {
    forall x ensures x in Rank(cs) <==> x in cs {
      assert x in Rank(cs) <==> x in multiset(Rank(cs));
      assert x in cs <==> x in multiset(cs);
    }
  }

  /**
   * The best `n`: each candidate left out scores no higher than anything
   * selected.
   */
  lemma TakeIsTop(cs: seq<Scored>, n: nat, x: Scored)
    requires x in cs && x !in Take(Rank(cs), n)
    ensures forall y :: y in Take(Rank(cs), n) ==> y.score >= x.score
  {
    var q := Rank(cs);
    RankMembers(cs);
    RankSorted(cs);
    var j :| 0 <= j < |q| && q[j] == x;
    assert j >= n;
    forall y | y in Take(q, n) ensures y.score >= x.score {
      var i :| 0 <= i < |Take(q, n)| && Take(q, n)[i] == y;
      assert q[i] == y;
    }
  }

  /** getTargets returns at most `n` entities, each visible and eligible. */
  lemma SelectSound(c: Context, es: seq<Entity>, n: nat)
    ensures |Select(c, es, n)| <= n
    ensures forall e :: e in Select(c, es, n) ==> e in es && Eligible(c, e)
  {
    var cs := Candidates(c, es);
    var top := Take(Rank(cs), n);
    var r := Select(c, es, n);
    CandidatesSound(c, es);
    RankMembers(cs);
    forall e | e in r ensures e in es && Eligible(c, e) {
      var i :| 0 <= i < |r| && r[i] == e;
      assert top[i] in Rank(cs);
    }
  }

  /**
   * The two filters in their own terms: a returned entity has a table entry
   * or is attacking us, and with PvP off no character is returned.
   */
  lemma SelectFilters(c: Context, es: seq<Entity>, n: nat)
    ensures forall e :: e in Select(c, es, n) ==> InTable(c.table, e.mtype) || TargetsMe(e, c.myName)
    ensures !c.pvp ==> forall e :: e in Select(c, es, n) ==> e.kind != Character
  {
    SelectSound(c, es, n);
  }

  /** getTargets returns its entities best first. */
  lemma SelectOrdered(c: Context, es: seq<Entity>, n: nat)
    ensures forall i, j :: 0 <= i < j < |Select(c, es, n)| ==>
      Score(c, Select(c, es, n)[i]) >= Score(c, Select(c, es, n)[j])
  {
    var cs := Candidates(c, es);
    var q := Rank(cs);
    var top := Take(q, n);
    var r := Select(c, es, n);
    CandidatesSound(c, es);
    RankMembers(cs);
    RankSorted(cs);
    forall i, j | 0 <= i < j < |r| ensures Score(c, r[i]) >= Score(c, r[j]) {
      assert top[i] == q[i] && top[j] == q[j];
      assert q[i] in cs && q[j] in cs;
    }
  }

  /** Asked for at least one target, getTargets returns none exactly when no entity is eligible. */
  lemma SelectEmpty(c: Context, es: seq<Entity>, n: nat)
    requires n >= 1
    ensures Select(c, es, n) == [] <==> forall e :: e in es ==> !Eligible(c, e)
  {
    var cs := Candidates(c, es);
    var q := Rank(cs);
    CandidatesEmpty(c, es);
    assert |multiset(q)| == |q| && |multiset(cs)| == |cs|;
    if cs != [] {
      assert |Take(q, n)| >= 1;
    }
  }

  /** No eligible entity left out scores higher than an entity returned. */
  lemma SelectTop(c: Context, es: seq<Entity>, n: nat, e: Entity, t: Entity)
    requires e in es && Eligible(c, e) && e !in Select(c, es, n)
    requires t in Select(c, es, n)
    ensures Score(c, t) >= Score(c, e)
  {
    var cs := Candidates(c, es);
    var top := Take(Rank(cs), n);
    var r := Select(c, es, n);
    CandidatesComplete(c, es, e);
    CandidatesSound(c, es);
    RankMembers(cs);
    var x := Scored(Score(c, e), e);
    TakeIsTop(cs, n, x);
    var k :| 0 <= k < |r| && r[k] == t;
    assert top[k] in top && top[k] in Rank(cs);
  }

  /**
   * An entity attacking us outranks another of the same type that is not,
   * unless it is more than 1000 further away; so the second is never the
   * first target.
   */
  lemma AttackerOutranks(c: Context, es: seq<Entity>, a: Entity, b: Entity)
    requires a in es && Eligible(c, a) && b in es
    requires a.mtype == b.mtype && TargetsMe(a, c.myName) && !TargetsMe(b, c.myName)
    requires !ClaimedAndLow(c, a)
    requires a.dist < b.dist + 1000.0
    ensures Score(c, a) > Score(c, b)
    ensures Select(c, es, 1) != [] && Select(c, es, 1)[0] != b
  {
    SelectEmpty(c, es, 1);
    SelectSound(c, es, 1);
    var r := Select(c, es, 1);
    assert r[0] in r;
    if r[0] == b && a !in r {
      SelectTop(c, es, 1, a, b);
    }
  }
}
