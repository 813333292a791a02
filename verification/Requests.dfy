/** What a request does, written out. */
module Requests {
  import opened Wrappers
  import opened Seqs
  import opened Scoring
  import opened Tables
  import opened Progression
  import opened Coherence
  import Tennis

  // Statuses, players and places by hand, so that each statement can be read without the
  // definitions of the machine.

  // Who may no longer change

  /** One request never changes a slot of a match that is live or over, or has sets. */
  lemma StartedKeepsPlayers(db: DB, q: Request, k: nat)
    requires Coherent(db) && k < |db.slots|
    requires || (db.matches[k / 2].status != Pending && db.matches[k / 2].status != Scheduled && db.matches[k / 2].status != Bye)
             || db.scores[k / 2] != []
    ensures |Step(db, q).1.slots| == |db.slots| && Step(db, q).1.slots[k] == db.slots[k]
  {
    StepKeepsCoherence(db, q);
  }

  /** The place of a group, once all its matches are over. */
  function PlaceIn(db: DB, g: nat, r: nat): Option<Team>
    requires Laid(db)
  {
    if (forall m :: 0 <= m < |db.matches| && db.matches[m].group == Some(g) ==>
          db.matches[m].status in {Completed, WalkedOver, RetiredFrom, Voided, Bye})
       && 1 <= r <= |Standings(db, g)|
    then Some(Standings(db, g)[r - 1].team) else None
  }

  lemma PlaceIs(db: DB, g: nat, r: nat)
    requires Laid(db)
    ensures PlaceAt(Placed(db, g), r) == PlaceIn(db, g, r)
  {
    forall m | 0 <= m < |db.matches|
      ensures Decided(db.matches[m].status) <==> db.matches[m].status in {Completed, WalkedOver, RetiredFrom, Voided, Bye}
    {
    }
  }

  /** The tables once match m carries the given result and nothing else has changed. */
  function Scored(db: DB, m: nat, sets: seq<SetScore>, status: Status, winner: Option<Team>): DB
    requires m < |db.matches| && m < |db.scores|
  {
    DB(db.matches[m := MatchRow(status, winner, db.matches[m].group, db.matches[m].next, db.matches[m].nextSlot)],
       db.slots, db.scores[m := sets], db.names)
  }

  /** Slot k would have to change: it takes the winner of m and that is another one, or it
      takes a place of m's group and that is another team's. */
  ghost predicate MustChange(db: DB, after: DB, m: nat, k: nat)
    requires Laid(db) && Laid(after) && m < |db.matches| == |after.matches| && k < |db.slots|
  {
    match db.slots[k].source
    case MatchWinner(f) => f == m && db.slots[k].team != after.matches[m].winner
    case GroupPlacement(g, r) => db.matches[m].group == Some(g) && db.slots[k].team != PlaceIn(after, g, r)
    case _ => false
  }

  /** A match that is live or over, or has sets. */
  ghost predicate Begun(db: DB, m: nat)
    requires m < |db.matches| && m < |db.scores|
  {
    db.matches[m].status in {Live, Completed, WalkedOver, RetiredFrom, Voided} || db.scores[m] != []
  }

  lemma MustChangeIs(db: DB, m: nat, sets: seq<SetScore>, status: Status, winner: Option<Team>, k: nat)
    requires Coherent(db) && m < |db.matches| && k < |db.slots|
    ensures Laid(Scored(db, m, sets, status, winner))
    ensures MustChange(db, Scored(db, m, sets, status, winner), m, k) <==>
              Due(WithResult(db, m, sets, status, winner), db.slots[k]) != db.slots[k].team
  {
    var scored := WithResult(db, m, sets, status, winner);
    assert Scored(db, m, sets, status, winner) == scored;
    DueAfterResult(db, m, sets, status, winner, k);
    if db.slots[k].source.GroupPlacement? {
      PlaceIs(scored, db.slots[k].source.group, db.slots[k].source.rank);
    }
  }

  /** The verdict names a side that has a player, or no side. */
  predicate Nameable(db: DB, m: nat, v: Verdict)
    requires Laid(db) && m < |db.matches|
  {
    v.Accepted? && (v.winner == 1 ==> TeamAt(db, m, 1).Some?) && (v.winner == 2 ==> TeamAt(db, m, 2).Some?)
  }

  function NamedTeam(db: DB, m: nat, v: Verdict): Option<Team>
    requires Laid(db) && m < |db.matches| && v.Accepted?
  {
    if v.winner == 1 then TeamAt(db, m, 1) else if v.winner == 2 then TeamAt(db, m, 2) else None
  }

  /** A slot that must change belongs to a match that has begun. */
  ghost predicate Obstructed(db: DB, after: DB, m: nat)
    requires Laid(db) && Laid(after) && m < |db.matches| == |after.matches|
  {
    exists k :: 0 <= k < |db.slots| && MustChange(db, after, m, k) && Begun(db, k / 2)
  }

  lemma ObstructedIs(db: DB, m: nat, sets: seq<SetScore>, status: Status, winner: Option<Team>)
    requires Coherent(db) && m < |db.matches|
    ensures Laid(Scored(db, m, sets, status, winner))
    ensures Obstructed(db, Scored(db, m, sets, status, winner), m) <==> Blocked(db, WithResult(db, m, sets, status, winner))
  {
    var scored := WithResult(db, m, sets, status, winner);
    assert Scored(db, m, sets, status, winner) == scored;
    forall k: nat | k < |db.slots|
      ensures MustChange(db, scored, m, k) <==> Due(scored, db.slots[k]) != db.slots[k].team
      ensures Begun(db, k / 2) <==> Started(db, db.slots[k].owner)
    {
      MustChangeIs(db, m, sets, status, winner, k);
    }
  }

  // The outcome of a submitted score

  ghost predicate Expected(db: DB, m: nat, sets: seq<SetScore>, v: Verdict, out: Outcome)
    requires Coherent(db)
  {
    && (out == NotFound <==> m >= |db.matches|)
    && (m < |db.matches| ==>
          && (out.Invalid? <==> v.Refused?) && (out.Invalid? ==> out.violations == v.violations)
          && (out == SlotEmpty <==> v.Accepted? && !Nameable(db, m, v))
          && (out.Locked? <==> Nameable(db, m, v) && Laid(Scored(db, m, sets, v.status, NamedTeam(db, m, v)))
                               && Obstructed(db, Scored(db, m, sets, v.status, NamedTeam(db, m, v)), m))
          && out != Immutable)
  }

  /** A submitted score is refused for an unknown match, for its violations, for a winning
      side without a player, or exactly when some slot that must change belongs to a match
      that has begun; and a refusal changes nothing. */
  lemma ScoreOutcome(db: DB, m: nat, cfg: Config, sets: seq<SetScore>, c: Completion, winnerSlot: int)
    requires Coherent(db)
    ensures var (out, after) := Step(db, Submit(m, cfg, sets, c, winnerSlot));
            Expected(db, m, sets, Judge(cfg, sets, c, winnerSlot), out) && (out != Done ==> after == db)
  {
    AcceptedShape(cfg, sets, c, winnerSlot);
    OutcomeOf(db, m, sets, Judge(cfg, sets, c, winnerSlot));
  }

  lemma OutcomeOf(db: DB, m: nat, sets: seq<SetScore>, v: Verdict)
    requires Coherent(db) && Sound(v, sets)
    ensures var (out, after) := SubmitJudged(db, m, sets, v);
            Expected(db, m, sets, v, out) && (out != Done ==> after == db)
  {
    SubmitIsSettle(db, m, sets, v);
    if m < |db.matches| && v.Accepted? && Nameable(db, m, v) {
      assert NamedTeam(db, m, v) == Named(db, m, v);
      ObstructedIs(db, m, sets, v.status, Named(db, m, v));
      SaveScoreIsSettle(db, m, sets, v.status, Named(db, m, v));
    }
  }

  // What an accepted score records

  /** The result of the match, and only of that match, is replaced. */
  ghost predicate Recorded(db: DB, after: DB, m: nat, sets: seq<SetScore>, status: Status, winner: Option<Team>)
    requires m < |db.matches| && m < |db.scores|
  {
    after.matches == Scored(db, m, sets, status, winner).matches && after.scores == db.scores[m := sets] && after.names == db.names
  }

  /** An accepted score: the sets as submitted, the status of the completion, and as winner of
      a walkover or a retirement the team on the named side, of a match played out the team on
      the side it was won from, otherwise nobody. */
  lemma ScoreRecorded(db: DB, m: nat, cfg: Config, sets: seq<SetScore>, c: Completion, winnerSlot: int)
    requires Coherent(db) && Step(db, Submit(m, cfg, sets, c, winnerSlot)).0 == Done
    ensures m < |db.matches|
    ensures var after := Step(db, Submit(m, cfg, sets, c, winnerSlot)).1;
            && (c == Walkover ==> winnerSlot in {1, 2} && TeamAt(db, m, winnerSlot).Some?
                                  && Recorded(db, after, m, sets, WalkedOver, TeamAt(db, m, winnerSlot)))
            && (c == Retired ==> winnerSlot in {1, 2} && TeamAt(db, m, winnerSlot).Some?
                                 && Recorded(db, after, m, sets, RetiredFrom, TeamAt(db, m, winnerSlot)))
            && (c == Normal ==> var v := Judge(cfg, sets, c, winnerSlot);
                                v.Accepted? && v.winner in {1, 2} && TeamAt(db, m, v.winner).Some?
                                && Recorded(db, after, m, sets, Completed, TeamAt(db, m, v.winner)))
            && (c == Incomplete ==> Recorded(db, after, m, sets, Live, None))
            && (c == Cancelled ==> Recorded(db, after, m, sets, Voided, None))
            && c != Unknown
  {
    AcceptedShape(cfg, sets, c, winnerSlot);
    AcceptedResult(cfg, sets, c, winnerSlot);
    JudgedRecorded(db, m, sets, Judge(cfg, sets, c, winnerSlot));
  }

  lemma JudgedRecorded(db: DB, m: nat, sets: seq<SetScore>, v: Verdict)
    requires Coherent(db) && Sound(v, sets) && SubmitJudged(db, m, sets, v).0 == Done
    ensures m < |db.matches| && v.Accepted?
    ensures v.winner in {1, 2} ==> TeamAt(db, m, v.winner).Some?
    ensures Recorded(db, SubmitJudged(db, m, sets, v).1, m, sets, v.status, NamedTeam(db, m, v))
  {
    SubmitIsSettle(db, m, sets, v);
  }

  /** A match played out is won by the team on the side that wins it ball by ball. */
  lemma PlayedMatchRecorded(db: DB, m: nat, cfg: Config, sets: seq<SetScore>, play: seq<Tennis.SetPlay>)
    requires Coherent(db) && cfg.bestOf >= 1 && cfg.bestOf % 2 == 1
    requires Tennis.PlayedAs(cfg, SortSets(sets), play)
    requires Step(db, Submit(m, cfg, sets, Normal, 0)).0 == Done
    ensures m < |db.matches|
    ensures var side := match Tennis.Leader(Map(Tennis.WinnerOf, play)) case One => 1 case Two => 2;
            Recorded(db, Step(db, Submit(m, cfg, sets, Normal, 0)).1, m, sets, Completed, TeamAt(db, m, side))
  {
    Tennis.TranscriptWinner(cfg, sets, play);
    ScoreRecorded(db, m, cfg, sets, Normal, 0);
  }

  // The status request

  /** Scheduled or live for a match that is neither over nor a bye; refused, changing
      nothing, for any other. */
  lemma StatusOutcome(db: DB, m: nat, live: bool)
    requires Laid(db)
    ensures var (out, after) := Step(db, SetStatus(m, live));
            && (out == NotFound <==> m >= |db.matches|)
            && (m < |db.matches| ==>
                  && (out == Immutable <==> db.matches[m].status in {Completed, WalkedOver, RetiredFrom, Voided, Bye})
                  && (out == Done <==> db.matches[m].status in {Pending, Scheduled, Live})
                  && (out == Done ==> Recorded(db, after, m, db.scores[m], if live then Live else Scheduled, db.matches[m].winner)
                                      && after.slots == db.slots))
            && (out != Done ==> after == db)
  {
  }

  // What slots hold in every coherent state

  /** A slot holds the winner of its feeder, or the team in its place once the group is over;
      a winner is one of the two players, and there is one exactly after a counted result. */
  lemma SlotsHold(db: DB, k: nat)
    requires Coherent(db) && k < |db.slots|
    ensures match db.slots[k].source
            case MatchWinner(f) => f < k / 2 && db.slots[k].team == db.matches[f].winner
            case GroupPlacement(g, r) => db.slots[k].team == PlaceIn(db, g, r)
            case Fixed => db.slots[k].team.Some?
            case ByeSource => db.slots[k].team == None
            case Empty => db.slots[k].team == None
    ensures db.matches[k / 2].winner.Some? <==> db.matches[k / 2].status in {Completed, WalkedOver, RetiredFrom}
    ensures db.matches[k / 2].winner.Some? ==>
              db.matches[k / 2].winner == db.slots[2 * (k / 2)].team || db.matches[k / 2].winner == db.slots[2 * (k / 2) + 1].team
  {
    assert RowShape(db, db.slots[k]) && SlotSettled(db, k) && MatchTruthful(db, k / 2);
    if db.slots[k].source.GroupPlacement? {
      PlaceIs(db, db.slots[k].source.group, db.slots[k].source.rank);
    }
  }

  // The resolver

  /** Resolving gives each slot whose place exists the team standing there now, and leaves every
      other slot, and every match, alone. */
  lemma ResolverFills(db: DB, k: nat)
    requires Laid(db) && k < |db.slots|
    ensures ResolveGroups(db) == DB(db.matches, ResolveGroups(db).slots, db.scores, db.names)
    ensures |ResolveGroups(db).slots| == |db.slots|
    ensures var row, now := db.slots[k], ResolveGroups(db).slots[k];
            match row.source
            case GroupPlacement(g, r) =>
              if 1 <= r <= |Standings(db, g)| then now == SlotRow(row.owner, row.side, Some(Standings(db, g)[r - 1].team), row.source)
              else now == row
            case _ => now == row
  {
  }

  /** It runs exactly after a result of a group match, once every group match is over. */
  lemma ResolverRuns(db: DB, m: nat)
    requires Laid(db) && m < |db.matches|
    ensures var over := forall i :: 0 <= i < |db.matches| && db.matches[i].group.Some? ==>
                          db.matches[i].status in {Completed, WalkedOver, RetiredFrom, Voided, Bye};
            MaybeResolveGroups(db, m) == if db.matches[m].group.Some? && over then ResolveGroups(db) else db
  {
    forall i | 0 <= i < |db.matches|
      ensures Decided(db.matches[i].status) <==> db.matches[i].status in {Completed, WalkedOver, RetiredFrom, Voided, Bye}
    {
    }
  }
}
