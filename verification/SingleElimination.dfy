/** A bracket from its build through every request. */
module SingleElimination {
  import opened Seqs
  import opened Wrappers
  import opened Powers
  import opened Bracket
  import opened Scoring
  import opened Tables
  import opened Progression
  import opened Coherence
  import opened Persist
  import opened Provenance
  import opened Liveness

  /** Pairs that validatePairs lets through for the event's participants, at least one
      of them not empty. */
  ghost predicate Buildable(pairs: seq<Pair>, names: map<Team, int>) {
    && LegalPairs(pairs, names.Keys)
    && Cleaned(pairs) != []
  }

  lemma {:induction false} CleanedPairs(pairs: seq<Pair>)
    requires forall i :: 0 <= i < |pairs| ==> (pairs[i].a.Some? <==> pairs[i].b.Some?)
    ensures TeamsIn(Cleaned(pairs)) == TeamsIn(pairs)
    ensures forall i :: 0 <= i < |Cleaned(pairs)| ==> Cleaned(pairs)[i].a.Some? && Cleaned(pairs)[i].b.Some?
  {
    if pairs != [] {
      var n := |pairs| - 1;
      CleanedPairs(pairs[..n]);
      var c := Cleaned(pairs);
      if !EmptyPair(pairs[n]) { assert c[..|c| - 1] == Cleaned(pairs[..n]); }
    }
  }

  /** The teams of full pairs, in slot order. */
  lemma {:induction false} TeamsInOrder(pairs: seq<Pair>)
    requires forall i :: 0 <= i < |pairs| ==> pairs[i].a.Some? && pairs[i].b.Some?
    ensures |TeamsIn(pairs)| == 2 * |pairs|
    ensures forall i :: 0 <= i < |pairs| ==>
              TeamsIn(pairs)[2 * i] == pairs[i].a.value && TeamsIn(pairs)[2 * i + 1] == pairs[i].b.value
  {
    if pairs != [] {
      TeamsInOrder(pairs[..|pairs| - 1]);
    }
  }

  lemma WiredSlots(pairs: seq<Pair>, m: nat, side: nat)
    requires Cleaned(pairs) != [] && 1 <= side <= 2 && m < |FromPairs(pairs)|
    ensures var c, slot := Cleaned(pairs), SideOf(FromPairs(pairs)[m], side);
            && FromPairs(pairs)[m].group == -1
            && slot == if m >= PowerAtLeast(|c|) then Feed
                       else if m >= |c| then ByeSlot
                       else PairSlot(if side == 1 then c[m].a else c[m].b)
  {
  }

  /** Round 1 of the built bracket: slot k holds team k of the list, or a bye. */
  lemma RoundOneTeams(pairs: seq<Pair>, names: map<Team, int>, m: nat, side: nat)
    requires Buildable(pairs, names) && 1 <= side <= 2 && m < |FromPairs(pairs)|
    ensures var s, k, teams := SideOf(FromPairs(pairs)[m], side), 2 * m + side - 1, TeamsIn(pairs);
            s == if m >= PowerAtLeast(|Cleaned(pairs)|) then Feed
                 else if k < |teams| then Entrant(teams[k]) else ByeSlot
    ensures FromPairs(pairs)[m].group == -1
    ensures |TeamsIn(pairs)| == 2 * |Cleaned(pairs)| <= 2 * PowerAtLeast(|Cleaned(pairs)|)
  {
    var c := Cleaned(pairs);
    CleanedPairs(pairs);
    TeamsInOrder(c);
    WiredSlots(pairs, m, side);
    if m < |c| { PairTeam(c, m, side); }
  }

  lemma PairTeam(c: seq<Pair>, m: nat, side: nat)
    requires forall i :: 0 <= i < |c| ==> c[i].a.Some? && c[i].b.Some?
    requires m < |c| && 1 <= side <= 2
    ensures |TeamsIn(c)| == 2 * |c|
    ensures PairSlot(if side == 1 then c[m].a else c[m].b) == Entrant(TeamsIn(c)[2 * m + side - 1])
  {
    TeamsInOrder(c);
  }

  lemma BuiltDrawOk(pairs: seq<Pair>, names: map<Team, int>)
    requires Buildable(pairs, names)
    ensures DrawOk(FromPairs(pairs), names)
  {
    BuiltTree(pairs, names);
    BuiltGroups(pairs);
    forall m: nat, side: nat | m < |FromPairs(pairs)| && 1 <= side <= 2
      ensures SlotOk(FromPairs(pairs), m, side, names)
    {
      RoundOneTeams(pairs, names, m, side);
      if m >= PowerAtLeast(|Cleaned(pairs)|) {
        TreeSlotOk(FromPairs(pairs), PowerAtLeast(|Cleaned(pairs)|), names, m, side);
      }
    }
  }

  lemma BuiltGroups(pairs: seq<Pair>)
    requires Cleaned(pairs) != []
    ensures forall m :: 0 <= m < |FromPairs(pairs)| ==> FromPairs(pairs)[m].group == -1
  {
  }

  lemma TreeSlotOk(ms: seq<Match>, f: nat, names: map<Team, int>, m: nat, side: nat)
    requires PerfectTree(ms, f) && f <= m < |ms| && 1 <= side <= 2
    requires forall i :: 0 <= i < |ms| ==> ms[i].group == -1
    ensures SlotOk(ms, m, side, names)
  {
    assert FedBy(ms, m, side, FeederOf(f, m, side));
  }

  function Built(pairs: seq<Pair>, names: map<Team, int>): (db: DB)
    requires EdgesInside(FromPairs(pairs))
  {
    Persisted(FromPairs(pairs), names)
  }

  /** What the freshly built bracket looks like to the progression machine. */
  lemma BuiltBracket(pairs: seq<Pair>, names: map<Team, int>)
    requires Buildable(pairs, names)
    ensures DrawOk(FromPairs(pairs), names)
    ensures var db := Built(pairs, names);
            Coherent(db) && FeedsOnce(db) && LeavesDistinct(db) && NoPlacements(db)
  {
    BuiltDrawOk(pairs, names);
    var ms := FromPairs(pairs);
    var db := Built(pairs, names);
    FreshDrawIsCoherent(ms, names);
    forall j, k | 0 <= j < k < |db.slots| && db.slots[j].source.MatchWinner?
      ensures db.slots[j].source != db.slots[k].source
    {
      if db.slots[j].source == db.slots[k].source { StoredFeedsDiffer(ms, names, j, k); }
    }
    forall k: nat | k < |db.slots| {
      BuiltLeaf(pairs, names, k);
    }
  }

  /** A leaf of the built bracket holds its team of the list, or a bye. */
  lemma BuiltLeaf(pairs: seq<Pair>, names: map<Team, int>, k: nat)
    requires Buildable(pairs, names) && DrawOk(FromPairs(pairs), names) && k < 2 * |FromPairs(pairs)|
    ensures var row, teams := Built(pairs, names).slots[k], TeamsIn(pairs);
            && !row.source.GroupPlacement?
            && (!row.source.MatchWinner? ==> row.team == if k < |teams| then Some(teams[k]) else None)
  {
    LeafSlot(pairs, names, k);
    LeafRow(FromPairs(pairs), names, k, LeafOf(TeamsIn(pairs), k));
  }

  function LeafOf(teams: seq<Team>, k: nat): Slot {
    if k < |teams| then Entrant(teams[k]) else ByeSlot
  }

  lemma LeafSlot(pairs: seq<Pair>, names: map<Team, int>, k: nat)
    requires Buildable(pairs, names) && k < 2 * |FromPairs(pairs)|
    ensures FedOrEntry(FromPairs(pairs)[k / 2], k % 2 + 1, LeafOf(TeamsIn(pairs), k))
  {
    var m, side := k / 2, k % 2 + 1;
    assert 2 * m + side - 1 == k;
    RoundOneTeams(pairs, names, m, side);
  }

  /** Every state reached from a build by any requests is coherent, and its leaves are
      still the pairs' teams. */
  lemma BracketRunsTrue(pairs: seq<Pair>, names: map<Team, int>, qs: seq<Request>)
    requires Buildable(pairs, names)
    ensures EdgesInside(FromPairs(pairs)) && Laid(Built(pairs, names))
    ensures var db := Run(Built(pairs, names), qs);
            Coherent(db) && FeedsOnce(db) && LeavesDistinct(db) && |db.matches| == |FromPairs(pairs)|
  {
    BuiltBracket(pairs, names);
    var db := Built(pairs, names);
    RunKeepsDraw(db, qs);
    SameDrawFeedsOnce(db, Run(db, qs));
    SameDrawLeaves(db, Run(db, qs));
  }

  /** In every such state a match never has the same team on both sides, and a winner
      won every match on its way up from its leaf. */
  lemma BracketPlayers(pairs: seq<Pair>, names: map<Team, int>, qs: seq<Request>, m: nat)
    requires Buildable(pairs, names) && m < |FromPairs(pairs)|
    ensures EdgesInside(FromPairs(pairs)) && Laid(Built(pairs, names))
    ensures var db := Run(Built(pairs, names), qs);
            && m < |db.matches|
            && (TeamAt(db, m, 1).Some? ==> TeamAt(db, m, 1) != TeamAt(db, m, 2))
            && (db.matches[m].winner.Some? ==> WonItsWay(db, db.matches[m].winner.value, m))
  {
    BracketRunsTrue(pairs, names, qs);
    var db := Run(Built(pairs, names), qs);
    NeverAgainstItself(db, m);
    if db.matches[m].winner.Some? { WinnersWonTheirWay(db, db.matches[m].winner.value, m); }
  }

  /** In every such state a team in a slot stands on a round-1 leaf below that slot of
      the bracket as it was built. */
  lemma BracketSlotsFromBelow(pairs: seq<Pair>, names: map<Team, int>, qs: seq<Request>, k: nat, t: Team)
    requires Buildable(pairs, names) && k < 2 * |FromPairs(pairs)|
    ensures EdgesInside(FromPairs(pairs)) && Laid(Built(pairs, names))
    ensures var db := Run(Built(pairs, names), qs);
            && |db.slots| == 2 * |FromPairs(pairs)|
            && (db.slots[k].team == Some(t) ==> UnderRow(Built(pairs, names), t, k))
  {
    BuiltBracket(pairs, names);
    var db := Built(pairs, names);
    RunKeepsDraw(db, qs);
    if Run(db, qs).slots[k].team == Some(t) {
      SlotFromLeaf(Run(db, qs), t, k);
      SameDrawUnder(db, Run(db, qs), t, k);
    }
  }

  // Byes

  /** In every such state a bye has advanced nobody: its match has no winner and the slots it
      feeds are open, until a score of that match is accepted. */
  lemma ByesNeverAdvance(pairs: seq<Pair>, names: map<Team, int>, qs: seq<Request>, q: Request, m: nat)
    requires Buildable(pairs, names) && m < |FromPairs(pairs)|
    ensures EdgesInside(FromPairs(pairs)) && Laid(Built(pairs, names))
    ensures var db, r := Run(Built(pairs, names), qs), Step(Run(Built(pairs, names), qs), q);
            && m < |db.matches| == |r.1.matches|
            && (db.matches[m].status == Bye ==>
                  && db.matches[m].winner.None?
                  && forall k :: 0 <= k < |db.slots| && db.slots[k].source == MatchWinner(m) ==> db.slots[k].team.None?)
            && (r.1.matches[m].winner != db.matches[m].winner ==> q.Submit? && q.m == m && r.0 == Done)
            && (r.1.matches[m].winner.Some? <==> Counts(r.1.matches[m].status))
  {
    BracketRunsTrue(pairs, names, qs);
    var db := Run(Built(pairs, names), qs);
    if db.matches[m].status == Bye { ByeGivesNothing(db, m); }
    WinnerOnlyBySubmit(db, q, m);
    StepKeepsDraw(db, q);
  }

  lemma BuiltUnplayed(pairs: seq<Pair>, names: map<Team, int>)
    requires Buildable(pairs, names)
    ensures EdgesInside(FromPairs(pairs)) && Unplayed(Built(pairs, names)) && Calm(Built(pairs, names))
    ensures FeedsOnce(Built(pairs, names)) && LeavesDistinct(Built(pairs, names)) && DrawOk(FromPairs(pairs), names)
  {
    BuiltBracket(pairs, names);
    NoSlotLeftEmpty(FromPairs(pairs), names);
  }

  /** A slot of the built bracket gets a player in some run exactly when not all leaves below
      it are byes. */
  lemma SlotFilledIff(pairs: seq<Pair>, names: map<Team, int>, k: nat)
    requires Buildable(pairs, names) && k < 2 * |FromPairs(pairs)|
    ensures EdgesInside(FromPairs(pairs)) && Laid(Built(pairs, names)) && |Built(pairs, names).slots| == 2 * |FromPairs(pairs)|
    ensures (exists qs :: Fills(Built(pairs, names), qs, k, None)) <==> !OnlyByes(Built(pairs, names), k)
  {
    BuiltUnplayed(pairs, names);
    FilledIff(Built(pairs, names), k, None);
    UnplayedFillable(Built(pairs, names), k);
  }

  /** And a given team in some run exactly when it stands on a leaf below. */
  lemma SlotReachedIff(pairs: seq<Pair>, names: map<Team, int>, k: nat, t: Team)
    requires Buildable(pairs, names) && k < 2 * |FromPairs(pairs)|
    ensures EdgesInside(FromPairs(pairs)) && Laid(Built(pairs, names)) && |Built(pairs, names).slots| == 2 * |FromPairs(pairs)|
    ensures (exists qs :: Fills(Built(pairs, names), qs, k, Some(t))) <==> UnderRow(Built(pairs, names), t, k)
  {
    BuiltUnplayed(pairs, names);
    FilledIff(Built(pairs, names), k, Some(t));
    UnplayedReach(Built(pairs, names), k, t);
  }

  /** The byes of the built bracket: the matches of round 1 that pad it. */
  lemma BuiltByes(pairs: seq<Pair>, names: map<Team, int>, m: nat)
    requires Buildable(pairs, names) && m < |FromPairs(pairs)|
    ensures EdgesInside(FromPairs(pairs)) && |Built(pairs, names).matches| == |FromPairs(pairs)|
    ensures var db, pad := Built(pairs, names), |Cleaned(pairs)| <= m < PowerAtLeast(|Cleaned(pairs)|);
            db.matches[m].status == if pad then Bye else Pending
  {
    BuiltDrawOk(pairs, names);
    StoredMatch(FromPairs(pairs), names, m);
    StoredRow(FromPairs(pairs), names, m, 1);
    StoredRow(FromPairs(pairs), names, m, 2);
    RoundOneTeams(pairs, names, m, 1);
    RoundOneTeams(pairs, names, m, 2);
  }

  // Who can still win

  /** The match that a match feeds, in the stored bracket. */
  lemma ConsumerOf(ms: seq<Match>, names: map<Team, int>, f: nat, i: nat) returns (k: nat)
    requires DrawOk(ms, names) && PerfectTree(ms, f) && i < |ms| - 1
    ensures i < k / 2 < |ms| && Persisted(ms, names).slots[k].source == MatchWinner(i)
  {
    var m, side := ms[i].next, ms[i].nextSlot;
    k := 2 * m + side - 1;
    StoredRow(ms, names, m, side);
    assert SideOf(ms[m], side) == Feed;
    assert FedBy(ms, m, side, Persisted(ms, names).slots[k].source.feeder);
  }

  lemma BuiltTree(pairs: seq<Pair>, names: map<Team, int>)
    requires Buildable(pairs, names)
    ensures PerfectTree(FromPairs(pairs), PowerAtLeast(|Cleaned(pairs)|)) && |FromPairs(pairs)| >= 1
  {
    var ms := FromPairs(pairs);
    assert Regrouped(ms, -1) == ms;
    WiredIsPerfectTree(PairRound(Cleaned(pairs)), -1);
  }

  /** Everyone below some match is below the final. */
  lemma {:induction false} Climb(ms: seq<Match>, names: map<Team, int>, f: nat, t: Team, m: nat)
    requires DrawOk(ms, names) && PerfectTree(ms, f) && Laid(Persisted(ms, names)) && m < |ms|
    requires UnderMatch(Persisted(ms, names), t, m)
    ensures UnderMatch(Persisted(ms, names), t, |ms| - 1)
    decreases |ms| - m
  {
    if m < |ms| - 1 {
      var k := ConsumerOf(ms, names, f, m);
      assert UnderRow(Persisted(ms, names), t, k);
      assert k == 2 * (k / 2) || k == 2 * (k / 2) + 1;
      Climb(ms, names, f, t, k / 2);
    }
  }

  /** The final feeds no match. */
  lemma FinalFeedsNothing(ms: seq<Match>, names: map<Team, int>, k: nat)
    requires DrawOk(ms, names) && k < 2 * |ms|
    ensures Persisted(ms, names).slots[k].source != MatchWinner(|ms| - 1)
  {
    StoredRow(ms, names, k / 2, k % 2 + 1);
  }

  lemma BuiltEnds(pairs: seq<Pair>, names: map<Team, int>, final: nat)
    requires Buildable(pairs, names) && final == |FromPairs(pairs)| - 1
    ensures EdgesInside(FromPairs(pairs)) && Laid(Built(pairs, names)) && EndsIn(Built(pairs, names), final)
  {
    BuiltBracket(pairs, names);
    BuiltGroupless(pairs, names, final);
    forall k: nat | k < 2 * |FromPairs(pairs)|
      ensures Built(pairs, names).slots[k].source != MatchWinner(final)
    {
      FinalFeedsNothing(FromPairs(pairs), names, k);
    }
  }

  lemma BuiltGroupless(pairs: seq<Pair>, names: map<Team, int>, m: nat)
    requires Buildable(pairs, names) && DrawOk(FromPairs(pairs), names) && m < |FromPairs(pairs)|
    ensures Built(pairs, names).matches[m].group.None?
  {
    WiredSlots(pairs, m, 1);
  }

  /** Who can still become champion, whatever has been requested so far: exactly the teams
      that stand in the final or can still come to it through matches without a score. */
  lemma ChampionIff(pairs: seq<Pair>, names: map<Team, int>, final: nat, played: seq<Request>, t: Option<Team>)
    requires Buildable(pairs, names) && final == |FromPairs(pairs)| - 1
    ensures EdgesInside(FromPairs(pairs)) && Laid(Built(pairs, names))
    ensures var db := Run(Built(pairs, names), played);
            && final < |db.matches|
            && ((exists qs :: Wins(db, qs, final, t)) <==> Playable(db, final, t))
  {
    BuiltEnds(pairs, names, final);
    var db := Built(pairs, names);
    RunKeepsEnd(db, final, played);
    FinalWonIff(Run(db, played), final, t);
  }

  /** Before the first score that is every team of the list. */
  lemma AnyTeamCanWin(pairs: seq<Pair>, names: map<Team, int>, final: nat, t: Team)
    requires Buildable(pairs, names) && final == |FromPairs(pairs)| - 1
    ensures EdgesInside(FromPairs(pairs)) && Laid(Built(pairs, names))
    ensures (exists qs :: Wins(Built(pairs, names), qs, final, Some(t))) <==> t in TeamsIn(pairs)
  {
    BuiltEnds(pairs, names, final);
    BuiltUnplayed(pairs, names);
    UnplayedWin(Built(pairs, names), final, t);
    UnderFinalIsListed(pairs, names, final, t);
    ListedIsUnderFinal(pairs, names, final, t);
  }

  lemma UnderFinalIsListed(pairs: seq<Pair>, names: map<Team, int>, final: nat, t: Team)
    requires Buildable(pairs, names) && final == |FromPairs(pairs)| - 1
    ensures EdgesInside(FromPairs(pairs)) && Laid(Built(pairs, names)) && final < |Built(pairs, names).matches|
    ensures UnderMatch(Built(pairs, names), t, final) ==> t in TeamsIn(pairs)
  {
    BuiltEnds(pairs, names, final);
    if UnderMatch(Built(pairs, names), t, final) {
      BuiltBracket(pairs, names);
      var k := LeafBelow(Built(pairs, names), t, final);
      BuiltLeaf(pairs, names, k);
    }
  }

  lemma ListedIsUnderFinal(pairs: seq<Pair>, names: map<Team, int>, final: nat, t: Team)
    requires Buildable(pairs, names) && final == |FromPairs(pairs)| - 1
    ensures EdgesInside(FromPairs(pairs)) && Laid(Built(pairs, names)) && final < |Built(pairs, names).matches|
    ensures t in TeamsIn(pairs) ==> UnderMatch(Built(pairs, names), t, final)
  {
    BuiltBracket(pairs, names);
    if k :| 0 <= k < |TeamsIn(pairs)| && TeamsIn(pairs)[k] == t {
      LeafOfTeam(pairs, names, k);
      TeamClimbs(pairs, names, t, k / 2);
    }
  }

  lemma TeamClimbs(pairs: seq<Pair>, names: map<Team, int>, t: Team, m: nat)
    requires Buildable(pairs, names) && DrawOk(FromPairs(pairs), names) && Laid(Built(pairs, names))
    requires m < |FromPairs(pairs)| && UnderMatch(Built(pairs, names), t, m)
    ensures UnderMatch(Built(pairs, names), t, |FromPairs(pairs)| - 1)
  {
    BuiltTree(pairs, names);
    Climb(FromPairs(pairs), names, PowerAtLeast(|Cleaned(pairs)|), t, m);
  }

  /** Team k of the list stands on leaf k of round 1. */
  lemma LeafOfTeam(pairs: seq<Pair>, names: map<Team, int>, k: nat)
    requires Buildable(pairs, names) && DrawOk(FromPairs(pairs), names) && Laid(Built(pairs, names))
    requires k < |TeamsIn(pairs)|
    ensures k / 2 < |FromPairs(pairs)| && UnderMatch(Built(pairs, names), TeamsIn(pairs)[k], k / 2)
  {
    LeafOfList(pairs, names, k);
    EntrantLeaf(FromPairs(pairs), names, k, TeamsIn(pairs)[k]);
  }

  lemma EntrantLeaf(ms: seq<Match>, names: map<Team, int>, k: nat, t: Team)
    requires DrawOk(ms, names) && Laid(Persisted(ms, names)) && k / 2 < |ms| && SideOf(ms[k / 2], k % 2 + 1) == Entrant(t)
    ensures UnderMatch(Persisted(ms, names), t, k / 2)
  {
    StoredRow(ms, names, k / 2, k % 2 + 1);
    FixedLeaf(Persisted(ms, names), t, k);
  }

  lemma LeafOfList(pairs: seq<Pair>, names: map<Team, int>, k: nat)
    requires Buildable(pairs, names) && k < |TeamsIn(pairs)|
    ensures k / 2 < |FromPairs(pairs)|
    ensures SideOf(FromPairs(pairs)[k / 2], k % 2 + 1) == Entrant(TeamsIn(pairs)[k])
  {
    BracketSize(pairs);
    LeafIndex(pairs, k);
    RoundOneEntry(pairs, names, k / 2, k % 2 + 1, k);
  }

  lemma RoundOneEntry(pairs: seq<Pair>, names: map<Team, int>, m: nat, side: nat, k: nat)
    requires Buildable(pairs, names) && 1 <= side <= 2 && m < PowerAtLeast(|Cleaned(pairs)|) && m < |FromPairs(pairs)|
    requires k == 2 * m + side - 1 && k < |TeamsIn(pairs)|
    ensures SideOf(FromPairs(pairs)[m], side) == Entrant(TeamsIn(pairs)[k])
  {
    RoundOneTeams(pairs, names, m, side);
  }

  lemma LeafIndex(pairs: seq<Pair>, k: nat)
    requires forall i :: 0 <= i < |pairs| ==> (pairs[i].a.Some? <==> pairs[i].b.Some?)
    requires Cleaned(pairs) != [] && k < |TeamsIn(pairs)|
    ensures 2 * (k / 2) + (k % 2 + 1) - 1 == k && k / 2 < PowerAtLeast(|Cleaned(pairs)|)
  {
    CleanedPairs(pairs);
    TeamsInOrder(Cleaned(pairs));
  }

  lemma BracketSize(pairs: seq<Pair>)
    requires Cleaned(pairs) != []
    ensures |FromPairs(pairs)| == 2 * PowerAtLeast(|Cleaned(pairs)|) - 1
  {
  }

  lemma FixedLeaf(db: DB, t: Team, k: nat)
    requires Laid(db) && k < |db.slots| && db.slots[k].source == Fixed && db.slots[k].team == Some(t)
    ensures UnderMatch(db, t, k / 2)
  {
    assert UnderRow(db, t, k);
    assert k == 2 * (k / 2) || k == 2 * (k / 2) + 1;
  }

  // A side left open for good

  /** The stored slot of a later round names the match that feeds it in the wiring. */
  lemma FedFrom(pairs: seq<Pair>, names: map<Team, int>, m: nat, side: nat)
    requires Buildable(pairs, names) && DrawOk(FromPairs(pairs), names) && 1 <= side <= 2
    requires PowerAtLeast(|Cleaned(pairs)|) <= m < |FromPairs(pairs)|
    ensures Built(pairs, names).slots[2 * m + side - 1].source.MatchWinner?
    ensures Built(pairs, names).slots[2 * m + side - 1].source.feeder == FeederOf(PowerAtLeast(|Cleaned(pairs)|), m, side)
  {
    BuiltTree(pairs, names);
    StoredRow(FromPairs(pairs), names, m, side);
    SameOnlyFeeder(FromPairs(pairs), m, side, Built(pairs, names).slots[2 * m + side - 1].source.feeder,
                   FeederOf(PowerAtLeast(|Cleaned(pairs)|), m, side));
  }

  lemma SameOnlyFeeder(ms: seq<Match>, m: nat, side: nat, i: int, j: int)
    requires 0 <= i < |ms| && OnlyFeeder(ms, m, side, i) && OnlyFeeder(ms, m, side, j)
    ensures i == j
  {
    assert ms[i].next == m && ms[i].nextSlot == side;
  }

  /** Every bracket of two pairs or more can get stuck: after the first match of round 1 has
      been won, the first match of round 2 can be scored, and from then on no request fills
      its other side or gives the match that feeds that side a winner. */
  lemma OpenSideIsLost(pairs: seq<Pair>, names: map<Team, int>, m: nat, later: seq<Request>)
    requires Buildable(pairs, names) && |Cleaned(pairs)| >= 2 && m == PowerAtLeast(|Cleaned(pairs)|)
    ensures EdgesInside(FromPairs(pairs)) && Laid(Built(pairs, names))
    ensures var db := Run(Built(pairs, names), TwoWalkovers(0, m));
            && 1 < m < |db.matches| == |Run(db, later).matches|
            && db.matches[m].winner.Some?
            && Run(db, later).slots[2 * m + 1].team.None? && Run(db, later).matches[1].winner.None?
  {
    BuiltUnplayed(pairs, names);
    SecondRound(pairs, names, m);
    SideIsLost(Built(pairs, names), 0, 1, m, later);
  }

  lemma SecondRound(pairs: seq<Pair>, names: map<Team, int>, m: nat)
    requires Buildable(pairs, names) && |Cleaned(pairs)| >= 2 && m == PowerAtLeast(|Cleaned(pairs)|)
    requires Unplayed(Built(pairs, names)) && Calm(Built(pairs, names)) && DrawOk(FromPairs(pairs), names)
    ensures var db := Built(pairs, names);
            && OneSided(db, m) && 1 < m && !Entered(db, m)
            && db.slots[2 * m].source == MatchWinner(0) && db.slots[2 * m + 1].source == MatchWinner(1)
            && TeamAt(db, 0, 1).Some?
  {
    SecondRoundFeeds(pairs, names, m);
    FirstTeam(pairs, names);
    UnplayedOneSided(Built(pairs, names), m);
  }

  lemma SecondRoundFeeds(pairs: seq<Pair>, names: map<Team, int>, m: nat)
    requires Buildable(pairs, names) && |Cleaned(pairs)| >= 2 && m == PowerAtLeast(|Cleaned(pairs)|)
    requires DrawOk(FromPairs(pairs), names)
    ensures 1 < m < |FromPairs(pairs)|
    ensures var db := Built(pairs, names);
            && db.matches[m].group.None?
            && db.slots[2 * m].source == MatchWinner(0) && db.slots[2 * m + 1].source == MatchWinner(1)
  {
    BracketSize(pairs);
    FedFrom(pairs, names, m, 1);
    FedFrom(pairs, names, m, 2);
    BuiltGroupless(pairs, names, m);
  }

  lemma UnplayedOneSided(db: DB, m: nat)
    requires Unplayed(db) && Calm(db) && m < |db.matches| && db.matches[m].group.None?
    requires db.slots[2 * m + 1].source.MatchWinner?
    ensures OneSided(db, m) && !Entered(db, m)
  {
    UnplayedSlot(db, 2 * m + 1);
    assert (2 * m) / 2 == m && !Entered(db, (2 * m) / 2);
  }

  lemma FirstTeam(pairs: seq<Pair>, names: map<Team, int>)
    requires Buildable(pairs, names) && DrawOk(FromPairs(pairs), names)
    ensures TeamsIn(pairs) != [] && |FromPairs(pairs)| >= 1
    ensures Built(pairs, names).slots[0].team == Some(TeamsIn(pairs)[0])
  {
    BracketSize(pairs);
    CleanedPairs(pairs);
    RoundOneTeams(pairs, names, 0, 1);
    LeafOfList(pairs, names, 0);
    StoredRow(FromPairs(pairs), names, 0, 1);
  }
}
