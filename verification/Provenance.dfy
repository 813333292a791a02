/** Where the players of a match come from. */
module Provenance {
  import opened Wrappers
  import opened Scoring
  import opened Tables
  import opened Progression
  import opened Coherence

  // Every team in a slot climbed there, win by win, from a leaf below it, and no team can
  // climb into both slots of a match.

  // The bracket below a slot

  /** Team t stands on a leaf below row k of the knockout. */
  ghost predicate UnderRow(db: DB, t: Team, k: nat)
    requires Laid(db) && k < |db.slots|
    decreases k / 2, 0
  {
    match db.slots[k].source
    case MatchWinner(f) => f < k / 2 && UnderMatch(db, t, f)
    case _ => db.slots[k].team == Some(t)
  }

  ghost predicate UnderMatch(db: DB, t: Team, m: nat)
    requires Laid(db) && m < |db.matches|
    decreases m, 1
  {
    UnderRow(db, t, 2 * m) || UnderRow(db, t, 2 * m + 1)
  }

  /** A slot of the knockout that no match feeds. */
  ghost predicate Leaf(db: DB, k: nat)
    requires Laid(db) && k < |db.slots|
  {
    !db.slots[k].source.MatchWinner? && db.matches[k / 2].group.None?
  }

  /** Each match feeds at most one slot. */
  ghost predicate FeedsOnce(db: DB) {
    forall j, k :: 0 <= j < k < |db.slots| && db.slots[j].source.MatchWinner? ==> db.slots[j].source != db.slots[k].source
  }

  /** No team stands on two leaves. */
  ghost predicate LeavesDistinct(db: DB)
    requires Laid(db)
  {
    forall j, k :: 0 <= j < k < |db.slots| && Leaf(db, j) && Leaf(db, k) && db.slots[j].team.Some? ==>
      db.slots[j].team != db.slots[k].team
  }

  /** On coherent tables a team in a slot stands on a leaf below it, and so does the
      winner of a match. */
  lemma {:induction false} SlotFromLeaf(db: DB, t: Team, k: nat)
    requires Coherent(db) && k < |db.slots| && db.slots[k].team == Some(t)
    ensures UnderRow(db, t, k)
    decreases k / 2, 0
  {
    if db.slots[k].source.MatchWinner? {
      FedSlot(db, k, db.slots[k].source.feeder);
      assert RowShape(db, db.slots[k]);
      WinnerFromLeaf(db, t, db.slots[k].source.feeder);
    }
  }

  lemma {:induction false} WinnerFromLeaf(db: DB, t: Team, m: nat)
    requires Coherent(db) && m < |db.matches| && db.matches[m].winner == Some(t)
    ensures UnderMatch(db, t, m)
    decreases m, 1
  {
    assert MatchTruthful(db, m);
    if db.slots[2 * m].team == Some(t) {
      SlotFromLeaf(db, t, 2 * m);
    } else {
      SlotFromLeaf(db, t, 2 * m + 1);
    }
  }

  /** The leaf itself. */
  lemma {:induction false} LeafBelow(db: DB, t: Team, m: nat) returns (k: nat)
    requires Shape(db) && m < |db.matches| && db.matches[m].group.None? && UnderMatch(db, t, m)
    ensures k < |db.slots| && k / 2 <= m && Leaf(db, k) && db.slots[k].team == Some(t)
    decreases m
  {
    var j := if UnderRow(db, t, 2 * m) then 2 * m else 2 * m + 1;
    assert RowShape(db, db.slots[j]);
    if db.slots[j].source.MatchWinner? {
      k := LeafBelow(db, t, db.slots[j].source.feeder);
    } else {
      k := j;
    }
  }

  /** If a team stands below two matches, the earlier one feeds its way toward the later. */
  lemma {:induction false} EarlierFeedsLater(db: DB, t: Team, c: nat, d: nat) returns (k: nat)
    requires Shape(db) && FeedsOnce(db) && LeavesDistinct(db)
    requires c < d < |db.matches| && db.matches[c].group.None? && db.matches[d].group.None?
    requires UnderMatch(db, t, c) && UnderMatch(db, t, d)
    ensures k < |db.slots| && db.slots[k].source == MatchWinner(c) && k / 2 <= d
    decreases d
  {
    var j := if UnderRow(db, t, 2 * d) then 2 * d else 2 * d + 1;
    assert RowShape(db, db.slots[j]);
    if db.slots[j].source.MatchWinner? {
      var f := db.slots[j].source.feeder;
      if f == c {
        k := j;
      } else if c < f {
        k := EarlierFeedsLater(db, t, c, f);
      } else {
        var i := EarlierFeedsLater(db, t, f, c);
        assert false;
      }
    } else {
      var leaf := LeafBelow(db, t, c);
      assert false;
    }
  }

  /** No team stands below both slots of a knockout match. */
  lemma SidesDisjoint(db: DB, t: Team, m: nat)
    requires Shape(db) && FeedsOnce(db) && LeavesDistinct(db)
    requires m < |db.matches| && db.matches[m].group.None?
    ensures !(UnderRow(db, t, 2 * m) && UnderRow(db, t, 2 * m + 1))
  {
    var a, b := db.slots[2 * m], db.slots[2 * m + 1];
    assert RowShape(db, a) && RowShape(db, b);
    if UnderRow(db, t, 2 * m) && UnderRow(db, t, 2 * m + 1) {
      if a.source.MatchWinner? && b.source.MatchWinner? {
        var f, g := a.source.feeder, b.source.feeder;
        var k := EarlierFeedsLater(db, t, if f < g then f else g, if f < g then g else f);
      } else if a.source.MatchWinner? {
        var leaf := LeafBelow(db, t, a.source.feeder);
      } else if b.source.MatchWinner? {
        var leaf := LeafBelow(db, t, b.source.feeder);
      }
      assert false;
    }
  }

  /** A match never has the same team on both sides. */
  lemma NeverAgainstItself(db: DB, m: nat)
    requires Coherent(db) && FeedsOnce(db) && LeavesDistinct(db) && m < |db.matches|
    ensures TeamAt(db, m, 1).Some? ==> TeamAt(db, m, 1) != TeamAt(db, m, 2)
  {
    if db.matches[m].group.Some? {
      assert GroupMatchShape(db, m);
    } else if TeamAt(db, m, 1).Some? {
      KnockoutSidesDiffer(db, m, TeamAt(db, m, 1).value);
    }
  }

  lemma KnockoutSidesDiffer(db: DB, m: nat, t: Team)
    requires Coherent(db) && FeedsOnce(db) && LeavesDistinct(db)
    requires m < |db.matches| && db.matches[m].group.None? && TeamAt(db, m, 1) == Some(t)
    ensures TeamAt(db, m, 2) != Some(t)
  {
    SlotFromLeaf(db, t, 2 * m);
    SidesDisjoint(db, t, m);
    if TeamAt(db, m, 2) == Some(t) {
      SlotFromLeaf(db, t, 2 * m + 1);
    }
  }

  // The chain of wins

  /** t won m, and every match on its way there down to a leaf. */
  ghost predicate WonItsWay(db: DB, t: Team, m: nat)
    requires Laid(db) && m < |db.matches|
    decreases m
  {
    && db.matches[m].winner == Some(t)
    && exists k :: 2 * m <= k <= 2 * m + 1 && db.slots[k].team == Some(t)
         && match db.slots[k].source
            case MatchWinner(f) => f < m && WonItsWay(db, t, f)
            case _ => true
  }

  lemma {:induction false} WinnersWonTheirWay(db: DB, t: Team, m: nat)
    requires Coherent(db) && m < |db.matches| && db.matches[m].winner == Some(t)
    ensures WonItsWay(db, t, m)
    decreases m
  {
    assert MatchTruthful(db, m);
    var k := if db.slots[2 * m].team == Some(t) then 2 * m else 2 * m + 1;
    assert db.slots[k].team == Some(t) && RowShape(db, db.slots[k]);
    if db.slots[k].source.MatchWinner? {
      FedSlot(db, k, db.slots[k].source.feeder);
      WinnersWonTheirWay(db, t, db.slots[k].source.feeder);
    }
  }

  // Requests change neither sources nor fixed teams

  ghost predicate SameDraw(db: DB, after: DB) {
    && |db.matches| == |after.matches| && |db.slots| == |after.slots| && db.names == after.names
    && (forall m :: 0 <= m < |db.matches| ==>
          db.matches[m].group == after.matches[m].group && db.matches[m].next == after.matches[m].next)
    && (forall k :: 0 <= k < |db.slots| ==>
          && db.slots[k].source == after.slots[k].source
          && (!db.slots[k].source.MatchWinner? && !db.slots[k].source.GroupPlacement? ==> db.slots[k] == after.slots[k]))
  }

  lemma StepKeepsDraw(db: DB, q: Request)
    requires Coherent(db)
    ensures SameDraw(db, Step(db, q).1)
  {
    match q
    case Submit(m, cfg, sets, c, w) =>
      AcceptedShape(cfg, sets, c, w);
      SubmitKeepsDraw(db, m, sets, Judge(cfg, sets, c, w));
    case SetStatus(m, live) => StatusKeepsDraw(db, m, live);
  }

  lemma StatusKeepsDraw(db: DB, m: nat, live: bool)
    requires Laid(db)
    ensures SameDraw(db, ChangeStatus(db, m, live).1)
  {
  }

  lemma SubmitKeepsDraw(db: DB, m: nat, sets: seq<SetScore>, v: Verdict)
    requires Coherent(db) && Sound(v, sets)
    ensures SameDraw(db, SubmitJudged(db, m, sets, v).1)
  {
    SubmitIsSettle(db, m, sets, v);
  }

  lemma {:induction false} RunKeepsDraw(db: DB, qs: seq<Request>)
    requires Coherent(db)
    ensures SameDraw(db, Run(db, qs)) && Coherent(Run(db, qs))
  {
    RunKeepsCoherence(db, qs);
    if qs != [] {
      RunKeepsDraw(db, qs[..|qs| - 1]);
      StepKeepsDraw(Run(db, qs[..|qs| - 1]), qs[|qs| - 1]);
    }
  }

  lemma SameDrawFeedsOnce(db: DB, after: DB)
    requires SameDraw(db, after) && FeedsOnce(db)
    ensures FeedsOnce(after)
  {
  }

  /** Without placements the leaves, and what stands below a slot, never change. */
  ghost predicate NoPlacements(db: DB) {
    forall k :: 0 <= k < |db.slots| ==> !db.slots[k].source.GroupPlacement?
  }

  lemma SameDrawLeaves(db: DB, after: DB)
    requires Laid(db) && Laid(after) && SameDraw(db, after) && NoPlacements(db) && LeavesDistinct(db)
    ensures LeavesDistinct(after)
  {
    forall k: nat | k < |db.slots|
      ensures Leaf(after, k) ==> Leaf(db, k) && after.slots[k] == db.slots[k]
    {
    }
  }

  lemma {:induction false} SameDrawUnder(db: DB, after: DB, t: Team, k: nat)
    requires Laid(db) && Laid(after) && SameDraw(db, after) && NoPlacements(db) && k < |db.slots|
    ensures UnderRow(after, t, k) <==> UnderRow(db, t, k)
    decreases k / 2
  {
    if db.slots[k].source.MatchWinner? && db.slots[k].source.feeder < k / 2 {
      var f := db.slots[k].source.feeder;
      SameDrawUnder(db, after, t, 2 * f);
      SameDrawUnder(db, after, t, 2 * f + 1);
    }
  }
}
