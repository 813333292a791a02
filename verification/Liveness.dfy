/** What can still happen. */
module Liveness {
  import opened Seqs
  import opened Wrappers
  import opened Scoring
  import opened Tables
  import opened Progression
  import opened Coherence
  import opened Provenance

  // When a slot can still get a player, a match a winner, a group its last result: exactly
  // while no accepted score has fixed what they would have to change.

  /** The slot holds the wanted team; None wants any team at all. */
  predicate Holds(row: SlotRow, t: Option<Team>) {
    row.team.Some? && (t.None? || row.team == t)
  }

  predicate WonBy(m: MatchRow, t: Option<Team>) {
    m.winner.Some? && (t.None? || m.winner == t)
  }

  /** The number of places of a group. */
  function Size(db: DB, g: nat): nat
    requires Laid(db)
  {
    |TeamsOf(db, g, |db.slots|)|
  }

  /** Slot k waits for an existing place of group g. */
  predicate Takes(db: DB, k: nat, g: nat)
    requires Laid(db) && k < |db.slots|
  {
    PlacementIn(db.slots[k], g) && 1 <= db.slots[k].source.rank <= Size(db, g)
  }

  /** No match that takes a place of the group has an accepted score. */
  ghost predicate TakersFree(db: DB, g: nat)
    requires Laid(db)
  {
    forall k :: 0 <= k < |db.slots| && Takes(db, k, g) ==> !Entered(db, k / 2)
  }

  /** No match that the winner of m goes to has an accepted score. */
  ghost predicate ConsumersFree(db: DB, m: nat)
    requires Laid(db)
  {
    forall k :: 0 <= k < |db.slots| && db.slots[k].source == MatchWinner(m) ==> !Entered(db, k / 2)
  }

  /** Slot k holds the wanted team, or its match has no score yet and the team can still
      come up to it. */
  ghost predicate Fillable(db: DB, k: nat, t: Option<Team>)
    requires Laid(db) && k < |db.slots|
    decreases k / 2, 0
  {
    || Holds(db.slots[k], t)
    || (!Entered(db, k / 2) &&
        match db.slots[k].source
        case MatchWinner(f) => f < k / 2 && Playable(db, f, t)
        case GroupPlacement(g, r) => t.None? && Takes(db, k, g) && TakersFree(db, g)
        case _ => false)
  }

  /** The wanted team stands in the match or can still come to it. */
  ghost predicate Playable(db: DB, m: nat, t: Option<Team>)
    requires Laid(db) && m < |db.matches|
    decreases m, 1
  {
    Fillable(db, 2 * m, t) || Fillable(db, 2 * m + 1, t)
  }

  // What no later request can bring back

  /** A state reached later: the same draw, and matches with a score keep their players. */
  ghost predicate Later(db: DB, after: DB) {
    && Coherent(db) && Coherent(after) && SameDraw(db, after)
    && forall k :: 0 <= k < |db.slots| && Entered(db, k / 2) ==> after.slots[k] == db.slots[k] && Entered(after, k / 2)
  }

  lemma RunIsLater(db: DB, qs: seq<Request>)
    requires Coherent(db)
    ensures Later(db, Run(db, qs))
  {
    var after := Run(db, qs);
    RunKeepsDraw(db, qs);
    forall m: nat | m < |db.matches| && Entered(db, m)
      ensures PlayersKept(db, after, m)
    {
      EnteredPlayersForGood(db, qs, m);
    }
    KeptIsLater(db, after);
  }

  ghost predicate PlayersKept(db: DB, after: DB, m: nat)
    requires Laid(db) && Laid(after) && |db.matches| == |after.matches| && m < |db.matches|
  {
    Entered(after, m) && after.slots[2 * m] == db.slots[2 * m] && after.slots[2 * m + 1] == db.slots[2 * m + 1]
  }

  lemma KeptIsLater(db: DB, after: DB)
    requires Coherent(db) && Coherent(after) && SameDraw(db, after)
    requires forall m :: 0 <= m < |db.matches| && Entered(db, m) ==> PlayersKept(db, after, m)
    ensures Later(db, after)
  {
    forall k: nat | k < |db.slots| && Entered(db, k / 2)
      ensures after.slots[k] == db.slots[k] && Entered(after, k / 2)
    {
      assert PlayersKept(db, after, k / 2);
      assert k == 2 * (k / 2) || k == 2 * (k / 2) + 1;
    }
  }

  lemma {:induction false} RankLength(s: Standing, table: seq<Standing>)
    ensures |Rank(s, table)| == |table| + 1
  {
    if table != [] { RankLength(s, table[..|table| - 1]); }
  }

  lemma {:induction false} RankedLength(rows: seq<Standing>)
    ensures |Ranked(rows)| == |rows|
  {
    if rows != [] {
      RankedLength(rows[..|rows| - 1]);
      RankLength(rows[|rows| - 1], Ranked(rows[..|rows| - 1]));
    }
  }

  /** A complete group fills exactly its places. */
  lemma PlacesFilled(db: DB, g: nat)
    requires Laid(db)
    ensures |Placed(db, g)| == if GroupComplete(db, g) then Size(db, g) else 0
  {
    RankedLength(RowsOf(db, g));
  }

  /** The teams of a group are fixed. */
  lemma {:induction false} SameDrawTeams(db: DB, after: DB, g: nat, n: nat)
    requires Shape(db) && Laid(after) && SameDraw(db, after) && n <= |db.slots|
    ensures TeamsOf(db, g, n) == TeamsOf(after, g, n)
  {
    if n > 0 {
      SameDrawTeams(db, after, g, n - 1);
      assert GroupMatchShape(db, (n - 1) / 2);
      assert n - 1 == 2 * ((n - 1) / 2) || n - 1 == 2 * ((n - 1) / 2) + 1;
    }
  }

  lemma SameTakes(db: DB, after: DB, k: nat, g: nat)
    requires Shape(db) && Laid(after) && SameDraw(db, after) && k < |db.slots|
    ensures Size(after, g) == Size(db, g)
    ensures Takes(after, k, g) <==> Takes(db, k, g)
  {
    SameDrawTeams(db, after, g, |db.slots|);
  }

  /** What a slot that takes a place holds. */
  lemma TakenPlace(db: DB, k: nat, g: nat)
    requires Coherent(db) && k < |db.slots| && PlacementIn(db.slots[k], g)
    ensures db.slots[k].team.Some? <==> GroupComplete(db, g) && Takes(db, k, g)
  {
    PlacesFilled(db, g);
    assert SlotSettled(db, k) && RowShape(db, db.slots[k]);
  }

  /** If a group was completed later, no match that takes one of its places had a score. */
  lemma CompletedTakersFree(db: DB, after: DB, g: nat)
    requires Later(db, after) && !GroupComplete(db, g) && GroupComplete(after, g)
    ensures TakersFree(db, g)
  {
    forall k: nat | k < |db.slots| && Takes(db, k, g)
      ensures !Entered(db, k / 2)
    {
      SameTakes(db, after, k, g);
      TakenPlace(db, k, g);
      TakenPlace(after, k, g);
    }
  }

  lemma LaterTakersFree(db: DB, after: DB, g: nat)
    requires Later(db, after) && TakersFree(after, g)
    ensures TakersFree(db, g)
  {
    forall k: nat | k < |db.slots| && Takes(db, k, g)
      ensures !Entered(db, k / 2)
    {
      SameTakes(db, after, k, g);
    }
  }

  lemma LaterPlacement(db: DB, after: DB, k: nat)
    requires Later(db, after) && k < |db.slots| && db.slots[k].source.GroupPlacement?
    requires Fillable(after, k, None)
    ensures Fillable(db, k, None)
  {
    var g := db.slots[k].source.group;
    SameTakes(db, after, k, g);
    TakenPlace(db, k, g);
    TakenPlace(after, k, g);
    if db.slots[k].team.None? {
      if GroupComplete(after, g) && Takes(after, k, g) {
        CompletedTakersFree(db, after, g);
      } else {
        LaterTakersFree(db, after, g);
      }
    }
  }

  /** The winner of a match stands in it. */
  lemma WinnerIsPlayable(db: DB, m: nat, t: Option<Team>)
    requires Coherent(db) && m < |db.matches| && WonBy(db.matches[m], t)
    ensures Playable(db, m, t)
  {
    assert MatchTruthful(db, m);
  }

  /** What can be filled later can be filled now: requests never open a new way. */
  lemma {:induction false} LaterFillable(db: DB, after: DB, k: nat, t: Option<Team>)
    requires Later(db, after) && k < |db.slots| && Fillable(after, k, t)
    requires t.None? || NoPlacements(db)
    ensures Fillable(db, k, t)
    decreases k / 2, 0
  {
    assert RowShape(db, db.slots[k]) && RowShape(after, after.slots[k]);
    if db.slots[k].source.MatchWinner? {
      var f := db.slots[k].source.feeder;
      FedSlot(after, k, f);
      if WonBy(after.matches[f], t) { WinnerIsPlayable(after, f, t); }
      if Playable(after, f, t) { LaterPlayable(db, after, f, t); }
    } else if db.slots[k].source.GroupPlacement? {
      LaterPlacement(db, after, k);
    }
  }

  lemma {:induction false} LaterPlayable(db: DB, after: DB, m: nat, t: Option<Team>)
    requires Later(db, after) && m < |db.matches| && Playable(after, m, t)
    requires t.None? || NoPlacements(db)
    ensures Playable(db, m, t)
    decreases m, 1
  {
    LaterFillable(db, after, if Fillable(after, 2 * m, t) then 2 * m else 2 * m + 1, t);
  }

  // Requests that fill it

  lemma SameNext(a: DB, qs: seq<Request>, b: DB, rs: seq<Request>, q: Request)
    requires Laid(a) && Laid(b) && Run(a, qs) == Run(b, rs)
    ensures Run(a, qs + [q]) == Run(b, rs + [q])
  {
    assert (qs + [q])[..|qs|] == qs && (rs + [q])[..|rs|] == rs;
  }

  lemma {:induction false} RunAppend(db: DB, a: seq<Request>, b: seq<Request>)
    requires Laid(db)
    ensures Run(db, a + b) == Run(Run(db, a), b)
  {
    if b == [] {
      assert a + b == a;
    } else {
      var front, q := b[..|b| - 1], b[|b| - 1];
      RunAppend(db, a, front);
      SameNext(db, a + front, Run(db, a), front, q);
      assert front + [q] == b && (a + front) + [q] == a + b;
    }
  }

  /** Only matches with an accepted score lock their players. */
  ghost predicate Calm(db: DB)
    requires Laid(db)
  {
    forall m :: 0 <= m < |db.matches| && Started(db, m) ==> Entered(db, m)
  }

  /** The first n matches are calm; nothing else has changed. */
  ghost predicate Calmed(db: DB, after: DB, n: nat)
    requires Coherent(db)
  {
    && Coherent(after) && SameDraw(db, after) && after.slots == db.slots
    && (forall m :: 0 <= m < |db.matches| ==> (Entered(after, m) <==> Entered(db, m)))
    && (forall m :: 0 <= m < n && m < |db.matches| && Started(after, m) ==> Entered(after, m))
  }

  /** Taking every live match without a score back to scheduled. */
  lemma {:induction false} CalmDown(db: DB, n: nat) returns (qs: seq<Request>)
    requires Coherent(db) && n <= |db.matches|
    ensures Calmed(db, Run(db, qs), n)
  {
    qs := [];
    if n > 0 {
      qs := CalmDown(db, n - 1);
      var next := CalmOne(db, Run(db, qs), n);
      RunAppend(db, qs, next);
      qs := qs + next;
    }
  }

  lemma OneStep(db: DB, q: Request)
    requires Laid(db)
    ensures Run(db, [q]) == Step(db, q).1
  {
    assert [q][..0] == [];
  }

  lemma CalmOne(db: DB, mid: DB, n: nat) returns (qs: seq<Request>)
    requires Coherent(db) && 1 <= n <= |db.matches| && Calmed(db, mid, n - 1)
    ensures Calmed(db, Run(mid, qs), n)
  {
    qs := [];
    if Started(mid, n - 1) && !Entered(mid, n - 1) {
      qs := [SetStatus(n - 1, false)];
      OneStep(mid, SetStatus(n - 1, false));
      Rescheduled(db, mid, n);
    }
  }

  lemma Rescheduled(db: DB, mid: DB, n: nat)
    requires Coherent(db) && 1 <= n <= |db.matches| && Calmed(db, mid, n - 1)
    requires Started(mid, n - 1) && !Entered(mid, n - 1)
    ensures Calmed(db, ChangeStatus(mid, n - 1, false).1, n)
  {
    StatusKeepsCoherence(mid, n - 1, false);
    var after := ChangeStatus(mid, n - 1, false).1;
    assert after.matches[n - 1].status == Scheduled;
    forall m: nat | m < |db.matches|
      ensures after.matches[m].group == db.matches[m].group && after.matches[m].next == db.matches[m].next
      ensures Entered(after, m) <==> Entered(db, m)
    {
      assert m != n - 1 ==> after.matches[m] == mid.matches[m];
    }
  }

  /** Side s wins match m by walkover. */
  function WalkoverFor(m: nat, s: int): Request {
    Submit(m, Config(3, true), [], Walkover, s)
  }

  function AfterWalkover(db: DB, m: nat, s: int): DB
    requires Laid(db) && m < |db.matches| && 1 <= s <= 2
  {
    Settle(WithResult(db, m, [], WalkedOver, TeamAt(db, m, s)))
  }

  /** Match m was won from side s, and no other match changed. */
  ghost predicate Played(db: DB, after: DB, m: nat, winner: Option<Team>)
    requires m < |db.matches|
  {
    && Coherent(after) && SameDraw(db, after) && |db.scores| == |after.scores|
    && after.matches[m].winner == winner && Decided(after.matches[m].status) && Entered(after, m)
    && forall x :: 0 <= x < |db.matches| && x != m ==>
         after.matches[x].status == db.matches[x].status && after.scores[x] == db.scores[x]
  }

  lemma WalkoverJudged(s: int)
    requires 1 <= s <= 2
    ensures Judge(Config(3, true), [], Walkover, s) == Accepted(s, WalkedOver)
  {
  }

  lemma WalkoverSettles(db: DB, m: nat, s: int)
    requires Coherent(db) && m < |db.matches| && 1 <= s <= 2 && TeamAt(db, m, s).Some?
    requires !Blocked(db, WithResult(db, m, [], WalkedOver, TeamAt(db, m, s)))
    ensures Step(db, WalkoverFor(m, s)).1 == AfterWalkover(db, m, s)
  {
    WalkoverJudged(s);
    SubmitIsSettle(db, m, [], Accepted(s, WalkedOver));
  }

  lemma WalkoverPlays(db: DB, m: nat, s: int)
    requires Coherent(db) && m < |db.matches| && 1 <= s <= 2
    requires Coherent(AfterWalkover(db, m, s)) && SameDraw(db, AfterWalkover(db, m, s))
    ensures Played(db, AfterWalkover(db, m, s), m, TeamAt(db, m, s))
  {
  }

  lemma WalkoverAccepted(db: DB, m: nat, s: int)
    requires Coherent(db) && m < |db.matches| && 1 <= s <= 2 && TeamAt(db, m, s).Some?
    requires !Blocked(db, WithResult(db, m, [], WalkedOver, TeamAt(db, m, s)))
    ensures Played(db, Run(db, [WalkoverFor(m, s)]), m, TeamAt(db, m, s))
  {
    WalkoverSettles(db, m, s);
    OneStep(db, WalkoverFor(m, s));
    StepKeepsDraw(db, WalkoverFor(m, s));
    StepKeepsCoherence(db, WalkoverFor(m, s));
    WalkoverPlays(db, m, s);
  }

  /** Playing a knockout match whose consumers are free is not refused. */
  lemma KnockoutUnblocked(db: DB, m: nat, winner: Option<Team>)
    requires Coherent(db) && Calm(db) && m < |db.matches| && db.matches[m].group.None? && ConsumersFree(db, m)
    ensures !Blocked(db, WithResult(db, m, [], WalkedOver, winner))
  {
    var scored := WithResult(db, m, [], WalkedOver, winner);
    forall k | 0 <= k < |db.slots| && Started(db, db.slots[k].owner)
      ensures Due(scored, db.slots[k]) == db.slots[k].team
    {
      DueAfterResult(db, m, [], WalkedOver, winner, k);
      assert Entered(db, k / 2);
    }
  }

  /** Nor is playing a match of an open group whose places are free. */
  lemma GroupUnblocked(db: DB, m: nat, winner: Option<Team>, g: nat)
    requires Coherent(db) && Calm(db) && m < |db.matches| && InGroup(db, m, g)
    requires TakersFree(db, g) && !GroupComplete(db, g)
    ensures !Blocked(db, WithResult(db, m, [], WalkedOver, winner))
  {
    var scored := WithResult(db, m, [], WalkedOver, winner);
    PlacesFilled(scored, g);
    SameDrawTeams(db, scored, g, |db.slots|);
    forall k: nat | k < |db.slots| && Started(db, db.slots[k].owner)
      ensures Due(scored, db.slots[k]) == db.slots[k].team
    {
      DueAfterResult(db, m, [], WalkedOver, winner, k);
      assert Entered(db, k / 2) && RowShape(db, db.slots[k]);
      if PlacementIn(db.slots[k], g) { TakenPlace(db, k, g); }
    }
  }

  /** A played match is calm, and calm matches stay so. */
  lemma PlayedIsCalm(db: DB, after: DB, m: nat, winner: Option<Team>)
    requires Laid(db) && Calm(db) && m < |db.matches| && Played(db, after, m, winner)
    ensures Calm(after)
  {
    forall x: nat | x < |db.matches| && Started(after, x)
      ensures Entered(after, x)
    {
      if x != m { assert Started(db, x); }
    }
  }

  // Completing a group

  /** The first n matches are decided if they are the group's; other matches did not change. */
  ghost predicate GroupPlayed(db: DB, after: DB, g: nat, n: nat)
    requires Coherent(db)
  {
    && Coherent(after) && Calm(after) && SameDraw(db, after)
    && (forall m :: 0 <= m < |db.matches| && !InGroup(db, m, g) ==>
          after.matches[m].status == db.matches[m].status && after.scores[m] == db.scores[m])
    && (forall m :: 0 <= m < n && m < |db.matches| && InGroup(db, m, g) ==> Decided(after.matches[m].status))
  }

  lemma GroupMatchReady(db: DB, mid: DB, g: nat, n: nat, m: nat)
    requires Coherent(db) && GroupPlayed(db, mid, g, n) && TakersFree(db, g)
    requires m < |db.matches| && InGroup(db, m, g) && !Decided(mid.matches[m].status)
    ensures InGroup(mid, m, g) && TakersFree(mid, g) && !GroupComplete(mid, g) && TeamAt(mid, m, 1).Some?
  {
    forall k: nat | k < |mid.slots| && Takes(mid, k, g)
      ensures !Entered(mid, k / 2)
    {
      SameTakes(db, mid, k, g);
      assert RowShape(db, db.slots[k]);
    }
    assert GroupMatchShape(mid, m) && RowShape(mid, mid.slots[2 * m]);
  }

  lemma GroupPlayedOneMore(db: DB, mid: DB, after: DB, g: nat, m: nat, winner: Option<Team>)
    requires Coherent(db) && GroupPlayed(db, mid, g, m) && m < |db.matches| && InGroup(db, m, g)
    requires Played(mid, after, m, winner)
    ensures GroupPlayed(db, after, g, m + 1)
  {
    PlayedIsCalm(mid, after, m, winner);
    SameDrawChain(db, mid, after);
    forall x: nat | x < |db.matches| && !InGroup(db, x, g)
      ensures after.matches[x].status == db.matches[x].status && after.scores[x] == db.scores[x]
    {
      assert x != m;
    }
  }

  lemma SameDrawChain(db: DB, mid: DB, after: DB)
    requires SameDraw(db, mid) && SameDraw(mid, after)
    ensures SameDraw(db, after)
  {
  }

  lemma PlayGroupMatch(db: DB, mid: DB, g: nat, m: nat) returns (qs: seq<Request>)
    requires Coherent(db) && m < |db.matches| && GroupPlayed(db, mid, g, m) && TakersFree(db, g)
    ensures GroupPlayed(db, Run(mid, qs), g, m + 1)
  {
    qs := [];
    if InGroup(db, m, g) && !Decided(mid.matches[m].status) {
      GroupMatchReady(db, mid, g, m, m);
      GroupUnblocked(mid, m, TeamAt(mid, m, 1), g);
      WalkoverAccepted(mid, m, 1);
      qs := [WalkoverFor(m, 1)];
      GroupPlayedOneMore(db, mid, Run(mid, qs), g, m, TeamAt(mid, m, 1));
    }
  }

  lemma {:induction false} PlayGroup(db: DB, g: nat, n: nat) returns (qs: seq<Request>)
    requires Coherent(db) && Calm(db) && n <= |db.matches| && TakersFree(db, g)
    ensures GroupPlayed(db, Run(db, qs), g, n)
  {
    qs := [];
    if n > 0 {
      qs := PlayGroup(db, g, n - 1);
      var next := PlayGroupMatch(db, Run(db, qs), g, n - 1);
      RunAppend(db, qs, next);
      qs := qs + next;
    }
  }

  lemma CompleteGroup(db: DB, g: nat) returns (qs: seq<Request>)
    requires Coherent(db) && Calm(db) && TakersFree(db, g)
    ensures GroupPlayed(db, Run(db, qs), g, |db.matches|) && GroupComplete(Run(db, qs), g)
  {
    qs := PlayGroup(db, g, |db.matches|);
    var after := Run(db, qs);
    forall m: nat | m < |after.matches| && InGroup(after, m, g)
      ensures Decided(after.matches[m].status)
    {
      assert InGroup(db, m, g);
    }
  }

  // Filling the knockout

  /** Knockout matches from m on have a score exactly when they had one. */
  ghost predicate Advanced(db: DB, after: DB, m: nat)
    requires Coherent(db)
  {
    && Coherent(after) && Calm(after) && SameDraw(db, after)
    && forall x :: m <= x < |db.matches| && db.matches[x].group.None? ==> (Entered(after, x) <==> Entered(db, x))
  }

  lemma AdvancedByGroup(db: DB, after: DB, g: nat, k: nat)
    requires Coherent(db) && GroupPlayed(db, after, g, |db.matches|) && GroupComplete(after, g)
    requires k < |db.slots| && Takes(db, k, g)
    ensures Advanced(db, after, k / 2) && after.slots[k].team.Some?
  {
    SameTakes(db, after, k, g);
    TakenPlace(after, k, g);
  }

  lemma AdvancedByWin(db: DB, mid: DB, after: DB, m: nat, winner: Option<Team>)
    requires Coherent(db) && m < |db.matches| && Advanced(db, mid, m) && Played(mid, after, m, winner)
    ensures Advanced(db, after, m + 1)
  {
    PlayedIsCalm(mid, after, m, winner);
    SameDrawChain(db, mid, after);
  }

  /** The consumers of m come later and have no score yet. */
  lemma ConsumersStayFree(db: DB, mid: DB, m: nat)
    requires Coherent(db) && m < |db.matches| && Advanced(db, mid, m) && ConsumersFree(db, m)
    ensures ConsumersFree(mid, m)
  {
    forall k: nat | k < |mid.slots| && mid.slots[k].source == MatchWinner(m)
      ensures !Entered(mid, k / 2)
    {
      assert RowShape(db, db.slots[k]);
    }
  }

  /** The one consumer of the match that feeds slot k. */
  lemma OnlyConsumer(db: DB, k: nat, f: nat)
    requires Shape(db) && FeedsOnce(db) && k < |db.slots| && db.slots[k].source == MatchWinner(f) && !Entered(db, k / 2)
    ensures ConsumersFree(db, f) && f < k / 2 && db.matches[f].group.None?
  {
    assert RowShape(db, db.slots[k]);
    forall j: nat | j < |db.slots| && db.slots[j].source == MatchWinner(f)
      ensures j == k
    {
    }
  }

  lemma {:induction false} FillSlot(db: DB, k: nat, t: Option<Team>) returns (qs: seq<Request>)
    requires Coherent(db) && FeedsOnce(db) && Calm(db) && k < |db.slots| && Fillable(db, k, t)
    ensures var after := Run(db, qs); Advanced(db, after, k / 2) && Holds(after.slots[k], t)
    decreases k / 2, 0
  {
    qs := [];
    if !Holds(db.slots[k], t) {
      if db.slots[k].source.MatchWinner? {
        var f := db.slots[k].source.feeder;
        OnlyConsumer(db, k, f);
        qs := PlayMatch(db, f, t);
        FedSlot(Run(db, qs), k, f);
      } else {
        qs := CompleteGroup(db, db.slots[k].source.group);
        AdvancedByGroup(db, Run(db, qs), db.slots[k].source.group, k);
      }
    }
  }

  lemma {:induction false} PlayMatch(db: DB, m: nat, t: Option<Team>) returns (qs: seq<Request>)
    requires Coherent(db) && FeedsOnce(db) && Calm(db) && m < |db.matches| && db.matches[m].group.None?
    requires Playable(db, m, t) && ConsumersFree(db, m)
    ensures var after := Run(db, qs); Advanced(db, after, m + 1) && WonBy(after.matches[m], t)
    decreases m, 1
  {
    var s := if Fillable(db, 2 * m, t) then 1 else 2;
    assert (2 * m + s - 1) / 2 == m;
    qs := FillSlot(db, 2 * m + s - 1, t);
    WinNext(db, Run(db, qs), m, s, t);
    RunAppend(db, qs, [WalkoverFor(m, s)]);
    qs := qs + [WalkoverFor(m, s)];
  }

  lemma WinNext(db: DB, mid: DB, m: nat, s: int, t: Option<Team>)
    requires Coherent(db) && m < |db.matches| && db.matches[m].group.None? && ConsumersFree(db, m)
    requires Advanced(db, mid, m) && 1 <= s <= 2 && Holds(mid.slots[2 * m + s - 1], t)
    ensures var after := Run(mid, [WalkoverFor(m, s)]); Advanced(db, after, m + 1) && WonBy(after.matches[m], t)
  {
    ConsumersStayFree(db, mid, m);
    KnockoutUnblocked(mid, m, TeamAt(mid, m, s));
    WalkoverAccepted(mid, m, s);
    AdvancedByWin(db, mid, Run(mid, [WalkoverFor(m, s)]), m, TeamAt(mid, m, s));
  }

  // From any coherent state

  lemma {:induction false} CalmedFillable(db: DB, calm: DB, k: nat, t: Option<Team>)
    requires Coherent(db) && Calmed(db, calm, |db.matches|) && k < |db.slots| && Fillable(db, k, t)
    ensures Fillable(calm, k, t)
    decreases k / 2, 0
  {
    if !Holds(db.slots[k], t) {
      match db.slots[k].source
      case MatchWinner(f) => CalmedPlayable(db, calm, f, t);
      case GroupPlacement(g, _) => CalmedTakersFree(db, calm, g);
    }
  }

  lemma {:induction false} CalmedPlayable(db: DB, calm: DB, m: nat, t: Option<Team>)
    requires Coherent(db) && Calmed(db, calm, |db.matches|) && m < |db.matches| && Playable(db, m, t)
    ensures Playable(calm, m, t)
    decreases m, 1
  {
    CalmedFillable(db, calm, if Fillable(db, 2 * m, t) then 2 * m else 2 * m + 1, t);
  }

  lemma CalmedTakersFree(db: DB, calm: DB, g: nat)
    requires Coherent(db) && Calmed(db, calm, |db.matches|) && TakersFree(db, g)
    ensures TakersFree(calm, g) && forall k :: 0 <= k < |db.slots| ==> (Takes(calm, k, g) <==> Takes(db, k, g))
  {
    forall k: nat | k < |db.slots|
      ensures Takes(calm, k, g) <==> Takes(db, k, g)
    {
      SameTakes(db, calm, k, g);
    }
  }

  ghost predicate Fills(db: DB, qs: seq<Request>, k: nat, t: Option<Team>)
    requires Laid(db)
  {
    k < |Run(db, qs).slots| && Holds(Run(db, qs).slots[k], t)
  }

  ghost predicate Wins(db: DB, qs: seq<Request>, m: nat, t: Option<Team>)
    requires Laid(db)
  {
    m < |Run(db, qs).matches| && WonBy(Run(db, qs).matches[m], t)
  }

  ghost predicate Completes(db: DB, qs: seq<Request>, g: nat)
    requires Laid(db)
  {
    GroupComplete(Run(db, qs), g)
  }

  lemma FillFrom(db: DB, k: nat, t: Option<Team>) returns (qs: seq<Request>)
    requires Coherent(db) && FeedsOnce(db) && k < |db.slots| && Fillable(db, k, t)
    ensures Fills(db, qs, k, t)
  {
    var calming := CalmDown(db, |db.matches|);
    var calm := Run(db, calming);
    CalmedFillable(db, calm, k, t);
    SameDrawFeedsOnce(db, calm);
    qs := FillSlot(calm, k, t);
    RunAppend(db, calming, qs);
    qs := calming + qs;
  }

  lemma WinFrom(db: DB, m: nat, t: Option<Team>) returns (qs: seq<Request>)
    requires Coherent(db) && FeedsOnce(db) && m < |db.matches| && db.matches[m].group.None?
    requires Playable(db, m, t) && ConsumersFree(db, m)
    ensures Wins(db, qs, m, t)
  {
    var calming := CalmDown(db, |db.matches|);
    var calm := Run(db, calming);
    CalmedPlayable(db, calm, m, t);
    SameDrawFeedsOnce(db, calm);
    qs := PlayMatch(calm, m, t);
    RunAppend(db, calming, qs);
    qs := calming + qs;
  }

  lemma CompleteFrom(db: DB, g: nat) returns (qs: seq<Request>)
    requires Coherent(db) && TakersFree(db, g)
    ensures Completes(db, qs, g)
  {
    var calming := CalmDown(db, |db.matches|);
    var calm := Run(db, calming);
    CalmedTakersFree(db, calm, g);
    qs := CompleteGroup(calm, g);
    RunAppend(db, calming, qs);
    qs := calming + qs;
  }

  /** Some requests bring a player, or a given team, into slot k exactly when it is
      fillable. */
  lemma FilledIff(db: DB, k: nat, t: Option<Team>)
    requires Coherent(db) && FeedsOnce(db) && k < |db.slots|
    requires t.None? || NoPlacements(db)
    ensures (exists qs :: Fills(db, qs, k, t)) <==> Fillable(db, k, t)
  {
    if qs :| Fills(db, qs, k, t) {
      RunIsLater(db, qs);
      LaterFillable(db, Run(db, qs), k, t);
    }
    if Fillable(db, k, t) {
      var qs := FillFrom(db, k, t);
    }
  }

  /** A knockout match can still be won, by anyone or by a given team, exactly when it is
      won so already, or the team can come to it and the winner's next match has no score. */
  lemma WonIff(db: DB, m: nat, t: Option<Team>)
    requires Coherent(db) && FeedsOnce(db) && m < |db.matches| && db.matches[m].group.None?
    requires t.None? || NoPlacements(db)
    ensures (exists qs :: Wins(db, qs, m, t)) <==>
              WonBy(db.matches[m], t) || (Playable(db, m, t) && ConsumersFree(db, m))
  {
    if qs :| Wins(db, qs, m, t) {
      RunIsLater(db, qs);
      LaterWin(db, Run(db, qs), m, t);
    }
    if WonBy(db.matches[m], t) { assert Wins(db, [], m, t); }
    if Playable(db, m, t) && ConsumersFree(db, m) {
      var qs := WinFrom(db, m, t);
    }
  }

  /** A knockout without groups, and the match nothing comes after. */
  ghost predicate EndsIn(db: DB, final: nat) {
    && Coherent(db) && FeedsOnce(db) && NoPlacements(db)
    && final < |db.matches| && db.matches[final].group.None?
    && forall k :: 0 <= k < |db.slots| ==> db.slots[k].source != MatchWinner(final)
  }

  lemma RunKeepsEnd(db: DB, final: nat, qs: seq<Request>)
    requires EndsIn(db, final)
    ensures EndsIn(Run(db, qs), final)
  {
    RunKeepsDraw(db, qs);
    SameEnd(db, Run(db, qs), final);
  }

  lemma SameEnd(db: DB, after: DB, final: nat)
    requires EndsIn(db, final) && SameDraw(db, after) && Coherent(after)
    ensures EndsIn(after, final)
  {
    SameDrawFeedsOnce(db, after);
  }

  /** The final can still be won exactly when someone can come to it. */
  lemma FinalWonIff(db: DB, final: nat, t: Option<Team>)
    requires EndsIn(db, final)
    ensures (exists qs :: Wins(db, qs, final, t)) <==> Playable(db, final, t)
  {
    WonIff(db, final, t);
    if WonBy(db.matches[final], t) { WinnerIsPlayable(db, final, t); }
  }

  lemma LaterWin(db: DB, after: DB, m: nat, t: Option<Team>)
    requires Later(db, after) && m < |db.matches| && WonBy(after.matches[m], t)
    requires t.None? || NoPlacements(db)
    ensures WonBy(db.matches[m], t) || (Playable(db, m, t) && ConsumersFree(db, m))
  {
    WinnerIsPlayable(after, m, t);
    LaterPlayable(db, after, m, t);
    if !ConsumersFree(db, m) {
      var k: nat :| k < |db.slots| && db.slots[k].source == MatchWinner(m) && Entered(db, k / 2);
      FedSlot(db, k, m);
      FedSlot(after, k, m);
    }
  }

  /** A group can still be completed exactly when it is complete or no match that takes one
      of its places has a score. */
  lemma CompletedIff(db: DB, g: nat)
    requires Coherent(db)
    ensures (exists qs :: Completes(db, qs, g)) <==> GroupComplete(db, g) || TakersFree(db, g)
  {
    if qs :| Completes(db, qs, g) {
      RunIsLater(db, qs);
      if !GroupComplete(db, g) { CompletedTakersFree(db, Run(db, qs), g); }
    }
    if GroupComplete(db, g) { assert Completes(db, [], g); }
    if TakersFree(db, g) {
      var qs := CompleteFrom(db, g);
    }
  }

  // An open side

  /** The open side of a match whose feeder has a player can still be filled exactly while
      the match has no accepted score. */
  lemma OpenSideIff(db: DB, k: nat, f: nat)
    requires Coherent(db) && FeedsOnce(db) && k < |db.slots|
    requires db.slots[k].team.None? && db.slots[k].source == MatchWinner(f)
    requires f < |db.matches| && (TeamAt(db, f, 1).Some? || TeamAt(db, f, 2).Some?)
    ensures (exists qs :: Fills(db, qs, k, None)) <==> !Entered(db, k / 2)
  {
    FilledIff(db, k, None);
    OnePlayerIsPlayable(db, f);
    assert RowShape(db, db.slots[k]);
  }

  lemma OnePlayerIsPlayable(db: DB, m: nat)
    requires Laid(db) && m < |db.matches| && (TeamAt(db, m, 1).Some? || TeamAt(db, m, 2).Some?)
    ensures Playable(db, m, None)
  {
    assert Holds(db.slots[2 * m], None) || Holds(db.slots[2 * m + 1], None);
  }

  /** A match scored with an open side keeps it open for good. */
  lemma OpenForGood(db: DB, k: nat, qs: seq<Request>)
    requires Coherent(db) && k < |db.slots| && Entered(db, k / 2) && db.slots[k].team.None?
    ensures |Run(db, qs).slots| == |db.slots| && Run(db, qs).slots[k].team.None?
  {
    RunIsLater(db, qs);
  }

  /** The first sides of f and then of m win. */
  function TwoWalkovers(f: nat, m: nat): seq<Request> {
    [WalkoverFor(f, 1), WalkoverFor(m, 1)]
  }

  /** Only the first side of m has a player, and nothing behind m has a score. */
  ghost predicate OneSided(db: DB, m: nat)
    requires Coherent(db)
  {
    && Calm(db) && m < |db.matches| && db.matches[m].group.None? && ConsumersFree(db, m)
    && db.slots[2 * m + 1].source.MatchWinner? && TeamAt(db, m, 2).None?
  }

  lemma FirstSideFilled(db: DB, f: nat, m: nat)
    requires Coherent(db) && FeedsOnce(db) && OneSided(db, m) && !Entered(db, m)
    requires db.slots[2 * m].source == MatchWinner(f) && f < |db.matches| && TeamAt(db, f, 1).Some?
    ensures var mid := Run(db, [WalkoverFor(f, 1)]);
            Coherent(mid) && SameDraw(db, mid) && OneSided(mid, m) && TeamAt(mid, m, 1) == TeamAt(db, f, 1)
  {
    OnlyConsumer(db, 2 * m, f);
    KnockoutUnblocked(db, f, TeamAt(db, f, 1));
    WalkoverAccepted(db, f, 1);
    StillOneSided(db, Run(db, [WalkoverFor(f, 1)]), f, m);
  }

  lemma StillOneSided(db: DB, mid: DB, f: nat, m: nat)
    requires Coherent(db) && FeedsOnce(db) && OneSided(db, m) && f < m && db.slots[2 * m].source == MatchWinner(f)
    requires Played(db, mid, f, TeamAt(db, f, 1))
    ensures OneSided(mid, m) && TeamAt(mid, m, 1) == TeamAt(db, f, 1)
  {
    PlayedIsCalm(db, mid, f, TeamAt(db, f, 1));
    FedSlot(mid, 2 * m, f);
    StillOpen(db, mid, f, TeamAt(db, f, 1), 2 * m + 1);
    StillFree(db, mid, f, TeamAt(db, f, 1), m);
  }

  lemma WonAlone(db: DB, m: nat)
    requires Coherent(db) && OneSided(db, m) && TeamAt(db, m, 1).Some?
    ensures var after := Run(db, [WalkoverFor(m, 1)]);
            && Coherent(after) && SameDraw(db, after) && Entered(after, m)
            && after.matches[m].winner == TeamAt(db, m, 1) && TeamAt(after, m, 2).None?
  {
    KnockoutUnblocked(db, m, TeamAt(db, m, 1));
    WalkoverAccepted(db, m, 1);
    OwnSideOpen(db, Run(db, [WalkoverFor(m, 1)]), m, TeamAt(db, m, 1));
  }

  lemma OwnSideOpen(db: DB, after: DB, m: nat, winner: Option<Team>)
    requires Coherent(db) && OneSided(db, m) && Played(db, after, m, winner)
    ensures TeamAt(after, m, 2).None?
  {
    assert RowShape(db, db.slots[2 * m + 1]);
    StillOpen(db, after, m, winner, 2 * m + 1);
  }

  /** Two walkovers leave such a match: one feeder is won, and then the match itself, while
      the other feeder has no winner. */
  lemma ScoredWithOpenSide(db: DB, f: nat, m: nat)
    requires Coherent(db) && FeedsOnce(db) && OneSided(db, m) && !Entered(db, m)
    requires db.slots[2 * m].source == MatchWinner(f) && f < |db.matches| && TeamAt(db, f, 1).Some?
    ensures var after := Run(db, TwoWalkovers(f, m));
            && Coherent(after) && SameDraw(db, after) && Entered(after, m)
            && after.matches[m].winner == TeamAt(db, f, 1) && TeamAt(after, m, 2).None?
  {
    var mid := Run(db, [WalkoverFor(f, 1)]);
    FirstSideFilled(db, f, m);
    WonAlone(mid, m);
    SameDrawChain(db, mid, Run(mid, [WalkoverFor(m, 1)]));
    RunAppend(db, [WalkoverFor(f, 1)], [WalkoverFor(m, 1)]);
    assert [WalkoverFor(f, 1)] + [WalkoverFor(m, 1)] == TwoWalkovers(f, m);
  }

  /** No later request fills that side, or gives its feeder a winner. */
  lemma SideIsLost(db: DB, f: nat, g: nat, m: nat, later: seq<Request>)
    requires Coherent(db) && FeedsOnce(db) && OneSided(db, m) && !Entered(db, m)
    requires db.slots[2 * m].source == MatchWinner(f) && f < |db.matches| && TeamAt(db, f, 1).Some?
    requires db.slots[2 * m + 1].source == MatchWinner(g)
    ensures var scored := Run(db, TwoWalkovers(f, m));
            && m < |scored.matches| && scored.matches[m].winner == TeamAt(db, f, 1)
            && |Run(scored, later).matches| == |scored.matches| > g
            && Run(scored, later).slots[2 * m + 1].team.None? && Run(scored, later).matches[g].winner.None?
  {
    ScoredWithOpenSide(db, f, m);
    OpenSideStays(db, Run(db, TwoWalkovers(f, m)), m, g, later);
  }

  lemma OpenSideStays(db: DB, scored: DB, m: nat, g: nat, later: seq<Request>)
    requires SameDraw(db, scored) && Laid(db) && m < |db.matches| && db.slots[2 * m + 1].source == MatchWinner(g)
    requires Coherent(scored) && Entered(scored, m) && scored.slots[2 * m + 1].team.None?
    ensures |Run(scored, later).matches| == |scored.matches| > g
    ensures Run(scored, later).slots[2 * m + 1].team.None? && Run(scored, later).matches[g].winner.None?
  {
    assert (2 * m + 1) / 2 == m;
    StaysOpen(scored, 2 * m + 1, g, later);
  }

  lemma StaysOpen(db: DB, k: nat, g: nat, later: seq<Request>)
    requires Coherent(db) && k < |db.slots| && Entered(db, k / 2) && db.slots[k].team.None?
    requires db.slots[k].source == MatchWinner(g)
    ensures g < |db.matches| == |Run(db, later).matches|
    ensures Run(db, later).slots[k].team.None? && Run(db, later).matches[g].winner.None?
  {
    FedRowIsFixed(db, later, k, g);
    OpenForGood(db, k, later);
  }

  /** Playing one match opens or closes only the slot it feeds. */
  lemma StillOpen(db: DB, after: DB, m: nat, winner: Option<Team>, k: nat)
    requires Coherent(db) && m < |db.matches| && Played(db, after, m, winner) && k < |db.slots|
    requires db.slots[k].source.MatchWinner? && db.slots[k].source != MatchWinner(m)
    ensures after.slots[k].team.Some? <==> db.slots[k].team.Some?
  {
    var f := db.slots[k].source.feeder;
    FedSlot(db, k, f);
    FedSlot(after, k, f);
    assert MatchTruthful(db, f) && MatchTruthful(after, f);
  }

  lemma StillFree(db: DB, after: DB, f: nat, winner: Option<Team>, m: nat)
    requires Coherent(db) && f < m < |db.matches| && Played(db, after, f, winner) && ConsumersFree(db, m)
    ensures ConsumersFree(after, m)
  {
    forall k: nat | k < |after.slots| && after.slots[k].source == MatchWinner(m)
      ensures !Entered(after, k / 2)
    {
      assert RowShape(db, db.slots[k]);
    }
  }

  // A group left open for good

  /** Match m, with a player on side s, waits for a place of the open group g. */
  ghost predicate WaitsForGroup(db: DB, m: nat, s: int, k: nat, g: nat)
    requires Coherent(db)
  {
    && Calm(db) && m < |db.matches| && db.matches[m].group.None? && ConsumersFree(db, m)
    && 1 <= s <= 2 && TeamAt(db, m, s).Some?
    && k / 2 == m && Takes(db, k, g) && !GroupComplete(db, g)
  }

  /** Scoring it closes the group's way: no later request completes the group. */
  lemma GroupIsLost(db: DB, m: nat, s: int, k: nat, g: nat)
    requires Coherent(db) && WaitsForGroup(db, m, s, k, g)
    ensures var scored := Run(db, [WalkoverFor(m, s)]);
            && Coherent(scored) && m < |scored.matches| && scored.matches[m].winner == TeamAt(db, m, s)
            && !exists later :: Completes(scored, later, g)
  {
    KnockoutUnblocked(db, m, TeamAt(db, m, s));
    WalkoverAccepted(db, m, s);
    CompletedIff(Run(db, [WalkoverFor(m, s)]), g);
    PlaceIsTaken(db, Run(db, [WalkoverFor(m, s)]), m, TeamAt(db, m, s), k, g);
  }

  lemma PlaceIsTaken(db: DB, after: DB, m: nat, winner: Option<Team>, k: nat, g: nat)
    requires Coherent(db) && m < |db.matches| && db.matches[m].group.None? && Played(db, after, m, winner)
    requires k / 2 == m && Takes(db, k, g) && !GroupComplete(db, g)
    ensures !GroupComplete(after, g) && !TakersFree(after, g)
  {
    var i: nat :| i < |db.matches| && InGroup(db, i, g) && !Decided(db.matches[i].status);
    assert InGroup(after, i, g) && !Decided(after.matches[i].status);
    SameTakes(db, after, k, g);
  }

  // Byes

  /** A bye advances nobody: its match has no winner, and the slot it feeds is open. */
  lemma ByeGivesNothing(db: DB, m: nat)
    requires Coherent(db) && m < |db.matches| && db.matches[m].status == Bye
    ensures db.matches[m].winner.None?
    ensures forall k :: 0 <= k < |db.slots| && db.slots[k].source == MatchWinner(m) ==> db.slots[k].team.None?
  {
    assert MatchTruthful(db, m);
    forall k | 0 <= k < |db.slots| && db.slots[k].source == MatchWinner(m)
      ensures db.slots[k].team.None?
    {
      FedSlot(db, k, m);
    }
  }

  /** A winner comes or goes only with an accepted score of that very match. */
  lemma WinnerOnlyBySubmit(db: DB, q: Request, m: nat)
    requires Coherent(db) && m < |db.matches|
    ensures var r := Step(db, q);
            && m < |r.1.matches|
            && (r.1.matches[m].winner != db.matches[m].winner ==> q.Submit? && q.m == m && r.0 == Done)
            && (r.1.matches[m].winner.Some? <==> Counts(r.1.matches[m].status))
  {
    StepKeepsCoherence(db, q);
    StepKeepsDraw(db, q);
    assert MatchTruthful(Step(db, q).1, m);
    match q
    case Submit(i, cfg, sets, c, w) =>
      AcceptedShape(cfg, sets, c, w);
      SubmitIsSettle(db, i, sets, Judge(cfg, sets, c, w));
    case SetStatus(i, live) =>
  }

  /** Every leaf below the slot is a bye. */
  ghost predicate OnlyByes(db: DB, k: nat)
    requires Laid(db) && k < |db.slots|
    decreases k / 2, 0
  {
    match db.slots[k].source
    case ByeSource => true
    case MatchWinner(f) => f < k / 2 && NobodyBelow(db, f)
    case _ => false
  }

  ghost predicate NobodyBelow(db: DB, m: nat)
    requires Laid(db) && m < |db.matches|
    decreases m, 1
  {
    OnlyByes(db, 2 * m) && OnlyByes(db, 2 * m + 1)
  }

  lemma {:induction false} OnlyByesUnfillable(db: DB, k: nat)
    requires Coherent(db) && k < |db.slots| && OnlyByes(db, k)
    ensures !Fillable(db, k, None)
    decreases k / 2, 0
  {
    assert RowShape(db, db.slots[k]);
    if db.slots[k].source.MatchWinner? {
      var f := db.slots[k].source.feeder;
      FedSlot(db, k, f);
      OnlyByesUnfillable(db, 2 * f);
      OnlyByesUnfillable(db, 2 * f + 1);
      if WonBy(db.matches[f], None) { WinnerIsPlayable(db, f, None); }
    }
  }

  // Before the first score

  ghost predicate Unplayed(db: DB) {
    && Coherent(db) && NoPlacements(db)
    && forall k :: 0 <= k < |db.slots| ==> db.slots[k].source != Empty && !Entered(db, k / 2)
  }

  lemma UnplayedSlot(db: DB, k: nat)
    requires Unplayed(db) && k < |db.slots| && db.slots[k].source.MatchWinner?
    ensures db.slots[k].team.None?
  {
    var f := db.slots[k].source.feeder;
    FedSlot(db, k, f);
    assert MatchTruthful(db, f) && !Entered(db, (2 * f) / 2);
  }

  /** Then every slot above an entry can be filled. */
  lemma {:induction false} UnplayedFillable(db: DB, k: nat)
    requires Unplayed(db) && k < |db.slots|
    ensures Fillable(db, k, None) <==> !OnlyByes(db, k)
    decreases k / 2, 0
  {
    assert RowShape(db, db.slots[k]);
    if db.slots[k].source.MatchWinner? {
      var f := db.slots[k].source.feeder;
      UnplayedSlot(db, k);
      UnplayedFillable(db, 2 * f);
      UnplayedFillable(db, 2 * f + 1);
    }
  }

  /** And by every team below it. */
  lemma {:induction false} UnplayedReach(db: DB, k: nat, t: Team)
    requires Unplayed(db) && k < |db.slots|
    ensures Fillable(db, k, Some(t)) <==> UnderRow(db, t, k)
    decreases k / 2, 0
  {
    assert RowShape(db, db.slots[k]);
    if db.slots[k].source.MatchWinner? {
      var f := db.slots[k].source.feeder;
      UnplayedSlot(db, k);
      UnplayedReach(db, 2 * f, t);
      UnplayedReach(db, 2 * f + 1, t);
    }
  }

  lemma UnplayedPlayable(db: DB, m: nat, t: Team)
    requires Unplayed(db) && m < |db.matches|
    ensures Playable(db, m, Some(t)) <==> UnderMatch(db, t, m)
  {
    UnplayedReach(db, 2 * m, t);
    UnplayedReach(db, 2 * m + 1, t);
  }

  lemma UnplayedWin(db: DB, final: nat, t: Team)
    requires Unplayed(db) && EndsIn(db, final)
    ensures (exists qs :: Wins(db, qs, final, Some(t))) <==> UnderMatch(db, t, final)
  {
    FinalWonIff(db, final, Some(t));
    UnplayedPlayable(db, final, t);
  }
}
