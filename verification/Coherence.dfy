/** What every request keeps. */
module Coherence {
  import opened Wrappers
  import opened Scoring
  import opened Tables
  import opened Progression

  // The one-level rebuild of SaveScore restores the whole graph, refuses exactly when it
  // must, and never touches a match that has started.

  // The invariant

  /** Sources point to earlier knockout matches; only fixed slots of group matches
      and of round 1 hold teams of their own. Places need display names that tell
      participants apart. */
  ghost predicate RowShape(db: DB, row: SlotRow)
    requires row.owner < |db.matches|
  {
    match row.source
    case MatchWinner(f) => f < row.owner && db.matches[f].group.None? && db.matches[row.owner].group.None?
    case GroupPlacement(g, r) => r >= 1 && db.matches[row.owner].group.None? && NamesDistinct(db.names)
    case Fixed => row.team.Some? && row.team.value in db.names
    case _ => row.team.None?
  }

  /** Group matches pair two different fixed teams. */
  ghost predicate GroupMatchShape(db: DB, m: nat)
    requires Laid(db) && m < |db.matches|
  {
    db.matches[m].group.Some? ==>
      && db.slots[2 * m].source == Fixed && db.slots[2 * m + 1].source == Fixed
      && db.slots[2 * m].team != db.slots[2 * m + 1].team
  }

  /** What the builders set up and no request changes. */
  ghost predicate Shape(db: DB) {
    && Laid(db)
    && (forall k {:trigger RowShape(db, db.slots[k])} :: 0 <= k < |db.slots| ==> RowShape(db, db.slots[k]))
    && (forall m :: 0 <= m < |db.matches| ==> GroupMatchShape(db, m))
  }

  /** Every slot holds exactly what its source owes it. */
  ghost predicate Settled(db: DB)
    requires Laid(db)
  {
    forall k :: 0 <= k < |db.slots| ==> SlotSettled(db, k)
  }

  ghost predicate SlotSettled(db: DB, k: int)
    requires Laid(db) && 0 <= k < |db.slots|
  {
    db.slots[k].team == Due(db, db.slots[k])
  }

  ghost predicate OnCourt(db: DB, m: nat, t: Option<Team>)
    requires Laid(db) && m < |db.matches|
  {
    t == TeamAt(db, m, 1) || t == TeamAt(db, m, 2)
  }

  /** A match has a winner exactly when its result counts, and it is one of its own
      two players. */
  ghost predicate Truthful(db: DB)
    requires Laid(db)
  {
    forall m :: 0 <= m < |db.matches| ==> MatchTruthful(db, m)
  }

  ghost predicate MatchTruthful(db: DB, m: nat)
    requires Laid(db) && m < |db.matches|
  {
    && (db.matches[m].winner.Some? <==> Counts(db.matches[m].status))
    && (db.matches[m].winner.Some? ==> OnCourt(db, m, db.matches[m].winner))
  }

  ghost predicate Coherent(db: DB) {
    Shape(db) && Settled(db) && Truthful(db)
  }

  // Standings only look at their own group

  ghost predicate SameGroup(db: DB, other: DB, g: nat)
    requires Laid(db) && Laid(other)
  {
    && |db.matches| == |other.matches| && db.names == other.names
    && (forall m :: 0 <= m < |db.matches| ==> db.matches[m].group == other.matches[m].group)
    && (forall m :: 0 <= m < |db.matches| && InGroup(db, m, g) ==>
          && db.matches[m] == other.matches[m]
          && db.scores[m] == other.scores[m]
          && db.slots[2 * m] == other.slots[2 * m]
          && db.slots[2 * m + 1] == other.slots[2 * m + 1])
  }

  lemma {:induction false} SameTeams(db: DB, other: DB, g: nat, n: nat)
    requires Laid(db) && Laid(other) && SameGroup(db, other, g) && n <= |db.slots|
    ensures TeamsOf(db, g, n) == TeamsOf(other, g, n)
  {
    if n > 0 {
      SameTeams(db, other, g, n - 1);
      SameRow(db, other, g, n - 1);
    }
  }

  lemma SameRow(db: DB, other: DB, g: nat, k: nat)
    requires Laid(db) && Laid(other) && SameGroup(db, other, g) && k < |db.slots|
    ensures InGroup(db, k / 2, g) <==> InGroup(other, k / 2, g)
    ensures InGroup(db, k / 2, g) ==> db.slots[k] == other.slots[k]
  {
    assert k == 2 * (k / 2) || k == 2 * (k / 2) + 1;
  }

  lemma SameStanding(db: DB, other: DB, g: nat, t: Team, n: nat)
    requires Laid(db) && Laid(other) && SameGroup(db, other, g) && n <= |db.slots|
    ensures StandingOf(db, g, t, n) == StandingOf(other, g, t, n)
  {
    forall k: nat | k < n
      ensures SameCounted(db, other, g, k)
    {
      SameCounting(db, other, g, k);
    }
    SameLine(db, other, g, t, n);
  }

  /** A row that adds the same to the standings of both. */
  predicate SameCounted(db: DB, other: DB, g: nat, k: nat)
    requires Laid(db) && Laid(other) && k < |db.slots| && k < |other.slots|
  {
    && (CountedRow(db, g, k) <==> CountedRow(other, g, k))
    && (CountedRow(db, g, k) ==>
          && db.slots[k] == other.slots[k]
          && db.matches[db.slots[k].owner] == other.matches[other.slots[k].owner]
          && db.scores[db.slots[k].owner] == other.scores[other.slots[k].owner])
  }

  lemma {:induction false} SameLine(db: DB, other: DB, g: nat, t: Team, n: nat)
    requires Laid(db) && Laid(other) && db.names == other.names && n <= |db.slots| == |other.slots|
    requires forall k :: 0 <= k < n ==> SameCounted(db, other, g, k)
    ensures StandingOf(db, g, t, n) == StandingOf(other, g, t, n)
  {
    if n > 0 {
      SameLine(db, other, g, t, n - 1);
      assert SameCounted(db, other, g, n - 1);
    }
  }

  lemma SameCounting(db: DB, other: DB, g: nat, k: nat)
    requires Laid(db) && Laid(other) && SameGroup(db, other, g) && k < |db.slots|
    ensures SameCounted(db, other, g, k)
  {
    SameRow(db, other, g, k);
  }

  lemma SamePlaces(db: DB, other: DB, g: nat)
    requires Laid(db) && Laid(other) && SameGroup(db, other, g)
    ensures Standings(db, g) == Standings(other, g)
    ensures GroupComplete(db, g) == GroupComplete(other, g)
    ensures Placed(db, g) == Placed(other, g)
  {
    SameTeams(db, other, g, |db.slots|);
    var ts := TeamsOf(db, g, |db.slots|);
    forall i | 0 <= i < |ts| {
      SameStanding(db, other, g, ts[i], |db.slots|);
    }
    assert RowsOf(db, g) == RowsOf(other, g);
  }

  /** Tables that differ only in slots fed from elsewhere have the same places. */
  lemma RefillKeepsPlaces(db: DB, other: DB, g: nat)
    requires Shape(db) && Laid(other)
    requires other == db.(slots := other.slots)
    requires forall k :: 0 <= k < |db.slots| && db.slots[k].source == Fixed ==> other.slots[k] == db.slots[k]
    ensures Placed(other, g) == Placed(db, g) && Standings(other, g) == Standings(db, g)
  {
    forall m | 0 <= m < |db.matches| && InGroup(db, m, g)
      ensures db.slots[2 * m] == other.slots[2 * m] && db.slots[2 * m + 1] == other.slots[2 * m + 1]
    {
      assert GroupMatchShape(db, m);
    }
    SamePlaces(db, other, g);
  }

  // SaveScore against the full sweep

  /** The result a whole request hands to SaveScore: a winner exactly when the
      status counts, and one of the match's own players. */
  ghost predicate ResultFits(db: DB, m: nat, status: Status, winner: Option<Team>)
    requires Laid(db) && m < |db.matches|
  {
    && (winner.Some? <==> Counts(status))
    && (winner.Some? ==> OnCourt(db, m, winner))
    && status != Bye
  }

  /** Some slot of a started match would have to change. */
  ghost predicate Blocked(db: DB, scored: DB)
    requires Laid(db) && Laid(scored) && |db.slots| == |scored.slots|
  {
    exists k :: 0 <= k < |db.slots| && Due(scored, db.slots[k]) != db.slots[k].team && Started(db, db.slots[k].owner)
  }

  /** Only the consumers of m, and of m's group, can be owed something new. */
  lemma DueAfterResult(db: DB, m: nat, sets: seq<SetScore>, status: Status, winner: Option<Team>, k: nat)
    requires Coherent(db) && m < |db.matches| && k < |db.slots|
    ensures var scored, row := WithResult(db, m, sets, status, winner), db.slots[k];
            var g := db.matches[m].group;
            && (row.source == MatchWinner(m) ==> Due(scored, row) == winner)
            && (row.source.GroupPlacement? && g == Some(row.source.group) ==>
                  Due(scored, row) == PlaceAt(Placed(scored, g.value), row.source.rank))
            && (row.source != MatchWinner(m) && !(row.source.GroupPlacement? && g == Some(row.source.group)) ==>
                  Due(scored, row) == row.team)
  {
    var scored, row := WithResult(db, m, sets, status, winner), db.slots[k];
    assert SlotSettled(db, k) && RowShape(db, db.slots[k]);
    if row.source.GroupPlacement? && db.matches[m].group != Some(row.source.group) {
      SamePlaces(db, scored, row.source.group);
    }
  }

  /** While neither the old nor the new status is final, the group stays open. */
  lemma OpenGroupStaysOpen(db: DB, m: nat, sets: seq<SetScore>, status: Status, winner: Option<Team>)
    requires Laid(db) && m < |db.matches| && db.matches[m].group.Some?
    requires !Decided(db.matches[m].status) && !Decided(status)
    ensures var g := db.matches[m].group.value;
            Placed(db, g) == [] && Placed(WithResult(db, m, sets, status, winner), g) == []
  {
    var g := db.matches[m].group.value;
    var scored := WithResult(db, m, sets, status, winner);
    assert InGroup(db, m, g) && InGroup(scored, m, g);
    assert scored.matches[m].status == status;
  }

  /** A consumer of m that must change belongs to a started match. */
  ghost predicate FeedBlocked(db: DB, m: nat, winner: Option<Team>)
    requires Laid(db)
  {
    exists k :: 0 <= k < |db.slots| && db.slots[k].source == MatchWinner(m)
                && db.slots[k].team != winner && Started(db, db.slots[k].owner)
  }

  predicate PlacementIn(row: SlotRow, g: nat) {
    row.source.GroupPlacement? && row.source.group == g
  }

  ghost predicate PlacesBlocked(db: DB, g: nat, places: seq<Team>)
    requires Laid(db)
  {
    exists k :: 0 <= k < |db.slots| && PlacementIn(db.slots[k], g)
                && db.slots[k].team != PlaceAt(places, db.slots[k].source.rank) && Started(db, db.slots[k].owner)
  }

  /** The winner feeds of SaveScore: refused exactly when a consumer that must change
      has started, and otherwise every consumer holds the winner. */
  lemma WinnerFeedsRebuilt(db: DB, m: nat, sets: seq<SetScore>, status: Status, winner: Option<Team>)
    requires Coherent(db) && m < |db.matches|
    ensures var scored := WithResult(db, m, sets, status, winner);
            var fed := FeedStep(scored, m, db.matches[m], winner);
            if FeedBlocked(db, m, winner) then fed.0.Locked? else fed == (Done, Refill(scored, WinnerOf(m, winner)))
  {
    var scored := WithResult(db, m, sets, status, winner);
    var supply := WinnerOf(m, winner);
    forall k | 0 <= k < |db.slots| && db.slots[k].source == MatchWinner(m)
      ensures db.slots[k].team == db.matches[m].winner
      ensures Started(scored, db.slots[k].owner) == Started(db, db.slots[k].owner)
    {
      assert SlotSettled(db, k) && RowShape(db, db.slots[k]);
    }
    var locked := LockedRows(scored, supply, |db.slots|);
    if db.matches[m].winner == winner {
      assert scored.slots == Refill(scored, supply).slots;
    } else if locked != [] {
      assert locked[0] in locked;
    }
  }

  /** The placement rebuild of SaveScore, on the tables the winner feeds left. */
  lemma PlacementsRebuilt(db: DB, m: nat, sets: seq<SetScore>, status: Status, winner: Option<Team>, g: nat)
    requires Coherent(db) && m < |db.matches| && db.matches[m].group == Some(g)
    ensures var scored := WithResult(db, m, sets, status, winner);
            var fed := Refill(scored, WinnerOf(m, winner));
            var placed := Rebuild(fed, PlacesOf(g, Placed(fed, g)));
            && Placed(fed, g) == Placed(scored, g)
            && if PlacesBlocked(db, g, Placed(scored, g)) then placed.0.Locked?
               else placed == (Done, Refill(fed, PlacesOf(g, Placed(scored, g))))
  {
    var scored := WithResult(db, m, sets, status, winner);
    var fed := Refill(scored, WinnerOf(m, winner));
    ResultKeepsShape(db, m, sets, status, winner);
    RefillKeepsPlaces(scored, fed, g);
    var supply := PlacesOf(g, Placed(scored, g));
    forall k | 0 <= k < |db.slots| && PlacementIn(db.slots[k], g)
      ensures fed.slots[k] == db.slots[k]
      ensures Started(fed, db.slots[k].owner) == Started(db, db.slots[k].owner)
    {
      assert RowShape(db, db.slots[k]);
    }
    var locked := LockedRows(fed, supply, |db.slots|);
    if locked != [] {
      assert locked[0] in locked;
    }
  }

  lemma ResultKeepsShape(db: DB, m: nat, sets: seq<SetScore>, status: Status, winner: Option<Team>)
    requires Shape(db) && m < |db.matches|
    ensures Shape(WithResult(db, m, sets, status, winner))
  {
    var scored := WithResult(db, m, sets, status, winner);
    assert forall i :: 0 <= i < |db.matches| ==> scored.matches[i].group == db.matches[i].group;
    forall k | 0 <= k < |db.slots|
      ensures RowShape(scored, scored.slots[k])
    {
      assert RowShape(db, db.slots[k]);
    }
    forall i | 0 <= i < |db.matches|
      ensures GroupMatchShape(scored, i)
    {
      assert GroupMatchShape(db, i);
    }
  }

  lemma BlockedCases(db: DB, m: nat, sets: seq<SetScore>, status: Status, winner: Option<Team>)
    requires Coherent(db) && m < |db.matches|
    ensures var scored, g := WithResult(db, m, sets, status, winner), db.matches[m].group;
            Blocked(db, scored) <==>
              FeedBlocked(db, m, winner) || (g.Some? && PlacesBlocked(db, g.value, Placed(scored, g.value)))
  {
    var scored, g := WithResult(db, m, sets, status, winner), db.matches[m].group;
    if Blocked(db, scored) {
      var k :| 0 <= k < |db.slots| && Due(scored, db.slots[k]) != db.slots[k].team && Started(db, db.slots[k].owner);
      DueAfterResult(db, m, sets, status, winner, k);
    }
    if FeedBlocked(db, m, winner) {
      var k :| 0 <= k < |db.slots| && db.slots[k].source == MatchWinner(m)
               && db.slots[k].team != winner && Started(db, db.slots[k].owner);
      DueAfterResult(db, m, sets, status, winner, k);
    }
    if g.Some? && PlacesBlocked(db, g.value, Placed(scored, g.value)) {
      var k :| 0 <= k < |db.slots| && PlacementIn(db.slots[k], g.value)
               && db.slots[k].team != PlaceAt(Placed(scored, g.value), db.slots[k].source.rank) && Started(db, db.slots[k].owner);
      DueAfterResult(db, m, sets, status, winner, k);
    }
  }

  /** Refilling the consumers of m, then of its group, is the full sweep. */
  lemma SweepIsRefill(db: DB, m: nat, sets: seq<SetScore>, status: Status, winner: Option<Team>)
    requires Coherent(db) && m < |db.matches|
    ensures var scored, g := WithResult(db, m, sets, status, winner), db.matches[m].group;
            var fed := Refill(scored, WinnerOf(m, winner));
            Settle(scored) == if g.None? then fed else Refill(fed, PlacesOf(g.value, Placed(scored, g.value)))
  {
    var scored, g := WithResult(db, m, sets, status, winner), db.matches[m].group;
    var fed := Refill(scored, WinnerOf(m, winner));
    var after := if g.None? then fed else Refill(fed, PlacesOf(g.value, Placed(scored, g.value)));
    forall k | 0 <= k < |db.slots|
      ensures Settle(scored).slots[k] == after.slots[k]
    {
      DueAfterResult(db, m, sets, status, winner, k);
    }
    assert Settle(scored).slots == after.slots;
  }

  /** Refilling with the places a group already has changes nothing. */
  lemma SamePlacesNoRefill(db: DB, m: nat, sets: seq<SetScore>, status: Status, winner: Option<Team>, g: nat)
    requires Coherent(db) && m < |db.matches| && Placed(WithResult(db, m, sets, status, winner), g) == Placed(db, g)
    ensures var scored := WithResult(db, m, sets, status, winner);
            var fed := Refill(scored, WinnerOf(m, winner));
            Refill(fed, PlacesOf(g, Placed(scored, g))) == fed && !PlacesBlocked(db, g, Placed(scored, g))
  {
    var scored := WithResult(db, m, sets, status, winner);
    var fed := Refill(scored, WinnerOf(m, winner));
    forall k | 0 <= k < |db.slots|
      ensures db.slots[k].team == Due(db, db.slots[k])
    {
      assert SlotSettled(db, k);
    }
    assert Refill(fed, PlacesOf(g, Placed(scored, g))).slots == fed.slots;
  }

  /** The incremental transaction is the full sweep: on coherent tables SaveScore
      refuses exactly when the sweep would change a slot of a started match, and then
      leaves everything as it was; otherwise it yields the swept tables. */
  lemma SaveScoreIsSettle(db: DB, m: nat, sets: seq<SetScore>, status: Status, winner: Option<Team>)
    requires Coherent(db) && m < |db.matches|
    ensures var scored, r := WithResult(db, m, sets, status, winner), SaveScore(db, m, sets, status, winner);
            if Blocked(db, scored) then r.0.Locked? && r.1 == db else r == (Done, Settle(scored))
  {
    WinnerFeedsRebuilt(db, m, sets, status, winner);
    BlockedCases(db, m, sets, status, winner);
    PlaceStepSweeps(db, m, sets, status, winner);
  }

  /** Step 9 completes the sweep that the winner feeds began. */
  lemma PlaceStepSweeps(db: DB, m: nat, sets: seq<SetScore>, status: Status, winner: Option<Team>)
    requires Coherent(db) && m < |db.matches|
    ensures var scored, g := WithResult(db, m, sets, status, winner), db.matches[m].group;
            var placed := PlaceStep(Refill(scored, WinnerOf(m, winner)), db.matches[m], status);
            if g.Some? && PlacesBlocked(db, g.value, Placed(scored, g.value)) then placed.0.Locked?
            else placed == (Done, Settle(scored))
  {
    var before := db.matches[m];
    SweepIsRefill(db, m, sets, status, winner);
    if before.group.Some? {
      if Decided(before.status) || Decided(status) {
        PlacementsRebuilt(db, m, sets, status, winner, before.group.value);
      } else {
        OpenGroupStaysOpen(db, m, sets, status, winner);
        SamePlacesNoRefill(db, m, sets, status, winner, before.group.value);
      }
    }
  }

  /** A re-score that keeps the winner and the group's order always succeeds. */
  lemma SameResultSucceeds(db: DB, m: nat, sets: seq<SetScore>, status: Status)
    requires Coherent(db) && m < |db.matches|
    requires var g := db.matches[m].group;
             g.Some? ==> Placed(WithResult(db, m, sets, status, db.matches[m].winner), g.value) == Placed(db, g.value)
    ensures SaveScore(db, m, sets, status, db.matches[m].winner)
         == (Done, WithResult(db, m, sets, status, db.matches[m].winner))
  {
    var winner, g := db.matches[m].winner, db.matches[m].group;
    var scored := WithResult(db, m, sets, status, winner);
    SaveScoreIsSettle(db, m, sets, status, winner);
    forall k | 0 <= k < |db.slots|
      ensures Due(scored, db.slots[k]) == db.slots[k].team
    {
      DueAfterResult(db, m, sets, status, winner, k);
      assert SlotSettled(db, k);
    }
    assert Settle(scored).slots == scored.slots;
  }

  // Every request keeps coherence

  /** An unblocked sweep leaves coherent tables. */
  lemma SettleIsCoherent(db: DB, m: nat, sets: seq<SetScore>, status: Status, winner: Option<Team>)
    requires Coherent(db) && m < |db.matches| && ResultFits(db, m, status, winner)
    requires !Blocked(db, WithResult(db, m, sets, status, winner))
    ensures Coherent(Settle(WithResult(db, m, sets, status, winner)))
  {
    var scored := WithResult(db, m, sets, status, winner);
    ResultKeepsShape(db, m, sets, status, winner);
    SweepKeepsShape(scored);
    SweepSettles(scored);
    SettleIsTruthful(db, m, sets, status, winner);
  }

  lemma SettleIsTruthful(db: DB, m: nat, sets: seq<SetScore>, status: Status, winner: Option<Team>)
    requires Coherent(db) && m < |db.matches| && ResultFits(db, m, status, winner)
    requires !Blocked(db, WithResult(db, m, sets, status, winner))
    ensures Truthful(Settle(WithResult(db, m, sets, status, winner)))
  {
    var scored := WithResult(db, m, sets, status, winner);
    var after := Settle(scored);
    forall i | 0 <= i < |db.matches|
      ensures MatchTruthful(after, i)
    {
      if i != m { OtherMatchTruthful(db, scored, i); } else { OwnMatchTruthful(db, m, sets, status, winner); }
    }
  }

  lemma OwnMatchTruthful(db: DB, m: nat, sets: seq<SetScore>, status: Status, winner: Option<Team>)
    requires Coherent(db) && m < |db.matches| && ResultFits(db, m, status, winner)
    ensures MatchTruthful(Settle(WithResult(db, m, sets, status, winner)), m)
  {
    OwnSlotsKept(db, m, sets, status, winner, 2 * m);
    OwnSlotsKept(db, m, sets, status, winner, 2 * m + 1);
  }

  lemma OtherMatchTruthful(db: DB, scored: DB, i: nat)
    requires Laid(db) && Truthful(db) && i < |db.matches| == |scored.matches|
    requires Laid(scored) && scored.slots == db.slots && scored.matches[i] == db.matches[i] && !Blocked(db, scored)
    ensures MatchTruthful(Settle(scored), i)
  {
    assert MatchTruthful(db, i);
    if db.matches[i].winner.Some? {
      assert Started(db, i) && db.slots[2 * i].owner == i && db.slots[2 * i + 1].owner == i;
      UnblockedKeepsSlot(db, scored, 2 * i);
      UnblockedKeepsSlot(db, scored, 2 * i + 1);
    }
  }

  lemma UnblockedKeepsSlot(db: DB, scored: DB, k: nat)
    requires Laid(db) && Laid(scored) && scored.slots == db.slots && k < |db.slots|
    requires !Blocked(db, scored) && Started(db, db.slots[k].owner)
    ensures Settle(scored).slots[k] == db.slots[k]
  {
  }

  /** A result never changes the players of its own match. */
  lemma OwnSlotsKept(db: DB, m: nat, sets: seq<SetScore>, status: Status, winner: Option<Team>, k: nat)
    requires Coherent(db) && m < |db.matches| && k < |db.slots| && db.slots[k].owner == m
    ensures Settle(WithResult(db, m, sets, status, winner)).slots[k] == db.slots[k]
  {
    assert RowShape(db, db.slots[k]);
    DueAfterResult(db, m, sets, status, winner, k);
  }

  lemma SweepKeepsShape(db: DB)
    requires Shape(db)
    ensures Shape(Settle(db))
  {
    var after := Settle(db);
    forall k | 0 <= k < |after.slots|
      ensures RowShape(after, after.slots[k])
    {
      assert RowShape(db, db.slots[k]);
    }
    forall i | 0 <= i < |db.matches|
      ensures GroupMatchShape(after, i)
    {
      assert GroupMatchShape(db, i);
    }
  }

  /** One sweep is enough: sweeping again changes nothing. */
  lemma SweepSettles(db: DB)
    requires Shape(db)
    ensures Settled(Settle(db))
  {
    var after := Settle(db);
    forall k | 0 <= k < |after.slots|
      ensures SlotSettled(after, k)
    {
      if db.slots[k].source.GroupPlacement? {
        RefillKeepsPlaces(db, after, db.slots[k].source.group);
      }
    }
  }

  /** On coherent tables the lock-free resolver never changes a slot. */
  lemma ResolverIsIdle(db: DB, m: nat)
    requires Coherent(db) && m < |db.matches|
    ensures MaybeResolveGroups(db, m) == db
  {
    if db.matches[m].group.Some? && GroupStageDone(db) {
      forall k | 0 <= k < |db.slots|
        ensures ResolveRow(db, db.slots[k]) == db.slots[k]
      {
        var row := db.slots[k];
        assert SlotSettled(db, k);
        if row.source.GroupPlacement? {
          assert GroupComplete(db, row.source.group);
        }
      }
      assert ResolveGroups(db).slots == db.slots;
    }
  }

  /** Slots of matches that had started are as they were. */
  ghost predicate StartedKept(db: DB, after: DB)
    requires Laid(db) && Laid(after)
  {
    && |db.slots| == |after.slots|
    && forall k :: 0 <= k < |db.slots| && Started(db, db.slots[k].owner) ==> after.slots[k] == db.slots[k]
  }

  /** The request reaches SaveScore. */
  predicate Admitted(db: DB, m: nat, v: Verdict)
    requires Laid(db)
  {
    m < |db.matches| && v.Accepted? && (v.winner != 0 ==> Named(db, m, v).Some?)
  }

  lemma NamedFits(db: DB, m: nat, sets: seq<SetScore>, v: Verdict)
    requires Laid(db) && Sound(v, sets) && Admitted(db, m, v)
    ensures ResultFits(db, m, v.status, Named(db, m, v))
  {
  }

  /** A submitted score in full: unless it is admitted and unblocked the tables stay
      as they were; otherwise match m carries exactly the submitted result and every
      slot is swept. */
  lemma SubmitIsSettle(db: DB, m: nat, sets: seq<SetScore>, v: Verdict)
    requires Coherent(db) && Sound(v, sets)
    ensures var r := SubmitJudged(db, m, sets, v);
            if Admitted(db, m, v) && !Blocked(db, WithResult(db, m, sets, v.status, Named(db, m, v)))
            then r == (Done, Settle(WithResult(db, m, sets, v.status, Named(db, m, v)))) && Coherent(r.1)
            else r.0 != Done && r.1 == db
  {
    if Admitted(db, m, v) {
      var w := Named(db, m, v);
      SaveScoreIsSettle(db, m, sets, v.status, w);
      var scored := WithResult(db, m, sets, v.status, w);
      if !Blocked(db, scored) {
        NamedFits(db, m, sets, v);
        SettleIsCoherent(db, m, sets, v.status, w);
        ResolverIsIdle(Settle(scored), m);
      }
    }
  }

  lemma SubmitKeepsCoherence(db: DB, m: nat, sets: seq<SetScore>, v: Verdict)
    requires Coherent(db) && Sound(v, sets)
    ensures var r := SubmitJudged(db, m, sets, v);
            Coherent(r.1) && StartedKept(db, r.1) && (r.0 != Done ==> r.1 == db)
  {
    SubmitIsSettle(db, m, sets, v);
    if Admitted(db, m, v) {
      var scored := WithResult(db, m, sets, v.status, Named(db, m, v));
      if !Blocked(db, scored) {
        forall k | 0 <= k < |db.slots| && Started(db, db.slots[k].owner)
          ensures Settle(scored).slots[k] == db.slots[k]
        {
          UnblockedKeepsSlot(db, scored, k);
        }
      }
    }
  }

  lemma StatusKeepsCoherence(db: DB, m: nat, live: bool)
    requires Coherent(db)
    ensures var r := ChangeStatus(db, m, live);
            Coherent(r.1) && StartedKept(db, r.1) && (r.0 != Done ==> r.1 == db) && r.1.slots == db.slots
  {
    if m < |db.matches| && !Decided(db.matches[m].status) {
      var after := ChangeStatus(db, m, live).1;
      assert forall i :: 0 <= i < |db.matches| ==>
        after.matches[i].group == db.matches[i].group && after.matches[i].winner == db.matches[i].winner;
      forall k | 0 <= k < |db.slots|
        ensures RowShape(after, after.slots[k]) && SlotSettled(after, k)
      {
        assert RowShape(db, db.slots[k]) && SlotSettled(db, k);
        if db.slots[k].source.GroupPlacement? {
          StatusKeepsPlaces(db, m, live, db.slots[k].source.group);
        }
      }
      forall i | 0 <= i < |db.matches|
        ensures GroupMatchShape(after, i) && MatchTruthful(after, i)
      {
        assert GroupMatchShape(db, i) && MatchTruthful(db, i);
      }
    }
  }

  lemma StatusKeepsPlaces(db: DB, m: nat, live: bool, g: nat)
    requires Laid(db) && m < |db.matches| && !Decided(db.matches[m].status)
    ensures Placed(ChangeStatus(db, m, live).1, g) == Placed(db, g)
  {
    var after := ChangeStatus(db, m, live).1;
    if InGroup(db, m, g) {
      assert InGroup(after, m, g) && !Decided(after.matches[m].status);
    } else {
      SamePlaces(db, after, g);
    }
  }

  /** One request: coherence is kept, no started match loses or changes a player, and
      a refusal changes nothing at all. */
  lemma StepKeepsCoherence(db: DB, q: Request)
    requires Coherent(db)
    ensures Coherent(Step(db, q).1) && StartedKept(db, Step(db, q).1)
    ensures Step(db, q).0 != Done ==> Step(db, q).1 == db
  {
    match q
    case Submit(m, cfg, sets, c, w) =>
      AcceptedShape(cfg, sets, c, w);
      SubmitKeepsCoherence(db, m, sets, Judge(cfg, sets, c, w));
    case SetStatus(m, live) => StatusKeepsCoherence(db, m, live);
  }

  /** Every run of requests keeps coherence. */
  lemma {:induction false} RunKeepsCoherence(db: DB, qs: seq<Request>)
    requires Coherent(db)
    ensures Coherent(Run(db, qs))
  {
    if qs != [] {
      RunKeepsCoherence(db, qs[..|qs| - 1]);
      StepKeepsCoherence(Run(db, qs[..|qs| - 1]), qs[|qs| - 1]);
    }
  }

  // What a recorded result fixes for good

  /** A score has been accepted for the match. */
  ghost predicate Entered(db: DB, m: nat)
    requires m < |db.matches| && |db.scores| == |db.matches|
  {
    db.scores[m] != [] || Counts(db.matches[m].status) || db.matches[m].status == Voided
  }

  lemma SubmitEnters(db: DB, m: nat, sets: seq<SetScore>, v: Verdict)
    requires Coherent(db) && Sound(v, sets) && SubmitJudged(db, m, sets, v).0 == Done
    ensures m < |db.matches| && Entered(SubmitJudged(db, m, sets, v).1, m)
  {
    SubmitIsSettle(db, m, sets, v);
  }

  lemma SubmitKeepsEntered(db: DB, i: nat, sets: seq<SetScore>, v: Verdict, m: nat)
    requires Coherent(db) && Sound(v, sets) && m < |db.matches| && Entered(db, m)
    ensures var after := SubmitJudged(db, i, sets, v).1;
            |after.matches| == |db.matches| && Entered(after, m)
  {
    SubmitIsSettle(db, i, sets, v);
    if i == m && SubmitJudged(db, i, sets, v).0 == Done {
      SubmitEnters(db, i, sets, v);
    }
  }

  lemma StepKeepsEntered(db: DB, q: Request, m: nat)
    requires Coherent(db) && m < |db.matches| && Entered(db, m)
    ensures var after := Step(db, q).1;
            && |after.matches| == |db.matches| && Entered(after, m)
            && after.slots[2 * m] == db.slots[2 * m] && after.slots[2 * m + 1] == db.slots[2 * m + 1]
  {
    StepKeepsCoherence(db, q);
    assert Started(db, m) && db.slots[2 * m].owner == m && db.slots[2 * m + 1].owner == m;
    match q
    case Submit(i, cfg, sets, c, w) =>
      AcceptedShape(cfg, sets, c, w);
      SubmitKeepsEntered(db, i, sets, Judge(cfg, sets, c, w), m);
    case SetStatus(i, live) =>
  }

  /** Once a score has been accepted for a match its two slots never change again,
      whatever is requested later: no request ever unlocks them. */
  lemma {:induction false} EnteredPlayersForGood(db: DB, qs: seq<Request>, m: nat)
    requires Coherent(db) && m < |db.matches| && Entered(db, m)
    ensures var after := Run(db, qs);
            && |after.matches| == |db.matches| && Entered(after, m)
            && after.slots[2 * m] == db.slots[2 * m] && after.slots[2 * m + 1] == db.slots[2 * m + 1]
  {
    if qs != [] {
      var before := Run(db, qs[..|qs| - 1]);
      EnteredPlayersForGood(db, qs[..|qs| - 1], m);
      RunKeepsCoherence(db, qs[..|qs| - 1]);
      StepKeepsEntered(before, qs[|qs| - 1], m);
    }
  }

  /** So the winner of every match that feeds it is fixed too. In particular a match
      scored while one side was still open keeps that side open: its feeder can never
      be given a winner. */
  lemma FeederOfEnteredIsFixed(db: DB, qs: seq<Request>, m: nat, side: nat, f: nat)
    requires Coherent(db) && m < |db.matches| && Entered(db, m) && 1 <= side <= 2
    requires db.slots[2 * m + side - 1].source == MatchWinner(f)
    ensures f < |db.matches| == |Run(db, qs).matches|
    ensures Run(db, qs).matches[f].winner == db.matches[f].winner == TeamAt(db, m, side)
  {
    assert (2 * m + side - 1) / 2 == m;
    FedRowIsFixed(db, qs, 2 * m + side - 1, f);
  }

  lemma FedRowIsFixed(db: DB, qs: seq<Request>, k: nat, f: nat)
    requires Coherent(db) && k < |db.slots| && Entered(db, k / 2) && db.slots[k].source == MatchWinner(f)
    ensures f < |db.matches| == |Run(db, qs).matches|
    ensures Run(db, qs).matches[f].winner == db.matches[f].winner == db.slots[k].team
  {
    EnteredRowForGood(db, qs, k);
    RunKeepsCoherence(db, qs);
    SameFeeder(db, Run(db, qs), k, f);
  }

  lemma EnteredRowForGood(db: DB, qs: seq<Request>, k: nat)
    requires Coherent(db) && k < |db.slots| && Entered(db, k / 2)
    ensures |Run(db, qs).slots| == |db.slots| && Run(db, qs).slots[k] == db.slots[k]
  {
    var m := k / 2;
    EnteredPlayersForGood(db, qs, m);
    RowOfMatch(db.slots, Run(db, qs).slots, m, k);
  }

  lemma RowOfMatch(was: seq<SlotRow>, now: seq<SlotRow>, m: nat, k: nat)
    requires m == k / 2 && 2 * m + 1 < |was| && 2 * m + 1 < |now|
    requires now[2 * m] == was[2 * m] && now[2 * m + 1] == was[2 * m + 1]
    ensures now[k] == was[k]
  {
    assert k == 2 * m || k == 2 * m + 1;
  }

  lemma SameFeeder(db: DB, after: DB, k: nat, f: nat)
    requires Coherent(db) && Coherent(after) && k < |db.slots| == |after.slots|
    requires after.slots[k] == db.slots[k] && db.slots[k].source == MatchWinner(f)
    ensures f < |db.matches| == |after.matches|
    ensures after.matches[f].winner == db.matches[f].winner == db.slots[k].team
  {
    FedSlot(db, k, f);
    FedSlot(after, k, f);
  }

  lemma FedSlot(db: DB, k: nat, f: nat)
    requires Coherent(db) && k < |db.slots| && db.slots[k].source == MatchWinner(f)
    ensures f < |db.matches| && db.slots[k].team == db.matches[f].winner
  {
    assert RowShape(db, db.slots[k]);
    assert SlotSettled(db, k);
  }
}
