/** Saving a score, and what follows from it: what each slot is owed, the rebuild of the
    consumers of a match or a group, the requests, and runs of them, as functions on the
    tables. */
module Progression {
  import opened Wrappers
  import opened Scoring
  import opened Tables

  // SaveScore and SetStatus (match/repository.go, match/service.go), RebuildGroupPlacements
  // and MaybeResolveGroups (draw/service.go), as functions on the tables.

  // What each slot is owed by its source

  function PlaceAt(places: seq<Team>, rank: nat): Option<Team> {
    if 1 <= rank <= |places| then Some(places[rank - 1]) else None
  }

  function Due(db: DB, row: SlotRow): Option<Team>
    requires Laid(db)
  {
    match row.source
    case MatchWinner(f) => if f < |db.matches| then db.matches[f].winner else None
    case GroupPlacement(g, r) => PlaceAt(Placed(db, g), r)
    case _ => row.team
  }

  /** Recompute every slot of the event from its source, in one sweep. */
  function Settle(db: DB): (r: DB)
    requires Laid(db)
    ensures Laid(r)
  {
    db.(slots := seq(|db.slots|, k requires 0 <= k < |db.slots| => db.slots[k].(team := Due(db, db.slots[k]))))
  }

  // Rebuilding the consumers of one match or one group

  /** What a rebuild hands out: the winner of a match, or the places of a group. */
  datatype Supply = WinnerOf(feeder: nat, winner: Option<Team>) | PlacesOf(group: nat, places: seq<Team>)

  /** The value the rebuild wants in a row, None when the row is no consumer. */
  function Wanted(supply: Supply, row: SlotRow): Option<Option<Team>> {
    match supply
    case WinnerOf(m, w) => if row.source == MatchWinner(m) then Some(w) else None
    case PlacesOf(g, places) =>
      if row.source.GroupPlacement? && row.source.group == g then Some(PlaceAt(places, row.source.rank)) else None
  }

  predicate WouldChange(supply: Supply, row: SlotRow) {
    Wanted(supply, row).Some? && Wanted(supply, row).value != row.team
  }

  /** A match that may no longer be given different players. */
  predicate Started(db: DB, m: nat)
    requires m < |db.matches| && |db.scores| == |db.matches|
  {
    var s := db.matches[m].status;
    (s != Pending && s != Scheduled && s != Bye) || db.scores[m] != []
  }

  function LockedRows(db: DB, supply: Supply, n: nat): (r: seq<nat>)
    requires Laid(db) && n <= |db.slots|
    ensures forall k :: k in r <==> 0 <= k < n && WouldChange(supply, db.slots[k]) && Started(db, db.slots[k].owner)
  {
    if n == 0 then []
    else
      var r := LockedRows(db, supply, n - 1);
      if WouldChange(supply, db.slots[n - 1]) && Started(db, db.slots[n - 1].owner) then r + [n - 1] else r
  }

  function Fill(supply: Supply, row: SlotRow): SlotRow {
    if WouldChange(supply, row) then row.(team := Wanted(supply, row).value) else row
  }

  function Refill(db: DB, supply: Supply): (r: DB)
    requires Laid(db)
    ensures Laid(r)
  {
    db.(slots := seq(|db.slots|, k requires 0 <= k < |db.slots| => Fill(supply, db.slots[k])))
  }

  // SaveScore

  datatype Outcome =
    | Done
    | NotFound
    | Immutable
    | Invalid(violations: seq<Violation>)
    | SlotEmpty
    | Locked(rows: seq<nat>)

  function WithResult(db: DB, m: nat, sets: seq<SetScore>, status: Status, winner: Option<Team>): DB
    requires Laid(db) && m < |db.matches|
  {
    db.(matches := db.matches[m := db.matches[m].(status := status, winner := winner)],
        scores := db.scores[m := sets])
  }

  /** RebuildGroupPlacements: the refused rows, or the refilled tables. */
  function Rebuild(db: DB, supply: Supply): (Outcome, DB)
    requires Laid(db)
  {
    var locked := LockedRows(db, supply, |db.slots|);
    if locked != [] then (Locked(locked), db) else (Done, Refill(db, supply))
  }

  /** Steps 3 to 8: rebuild the winner's consumers when the winner changed. */
  function FeedStep(db: DB, m: nat, before: MatchRow, winner: Option<Team>): (Outcome, DB)
    requires Laid(db)
  {
    if before.winner == winner then (Done, db) else Rebuild(db, WinnerOf(m, winner))
  }

  /** Step 9: a result moving into or out of a final status rebuilds its group. */
  function PlaceStep(db: DB, before: MatchRow, status: Status): (Outcome, DB)
    requires Laid(db)
  {
    if before.group.Some? && (Decided(before.status) || Decided(status))
    then Rebuild(db, PlacesOf(before.group.value, Placed(db, before.group.value)))
    else (Done, db)
  }

  /** The transaction: all of it, or nothing. */
  function SaveScore(db: DB, m: nat, sets: seq<SetScore>, status: Status, winner: Option<Team>): (Outcome, DB)
    requires Laid(db)
  {
    if m >= |db.matches| then (NotFound, db)
    else
      var before := db.matches[m];
      var fed := FeedStep(WithResult(db, m, sets, status, winner), m, before, winner);
      if fed.0 != Done then (fed.0, db)
      else
        var placed := PlaceStep(fed.1, before, status);
        if placed.0 != Done then (placed.0, db) else placed
  }

  // The requests

  /** ResolveGroups: fill every placement slot whose rank exists, no lock asked. */
  function ResolveRow(db: DB, row: SlotRow): SlotRow
    requires Laid(db)
  {
    if row.source.GroupPlacement? && 1 <= row.source.rank <= |Standings(db, row.source.group)|
    then row.(team := Some(Standings(db, row.source.group)[row.source.rank - 1].team))
    else row
  }

  function ResolveGroups(db: DB): DB
    requires Laid(db)
  {
    db.(slots := seq(|db.slots|, k requires 0 <= k < |db.slots| => ResolveRow(db, db.slots[k])))
  }

  predicate GroupStageDone(db: DB) {
    forall m :: 0 <= m < |db.matches| && db.matches[m].group.Some? ==> Decided(db.matches[m].status)
  }

  function MaybeResolveGroups(db: DB, m: nat): DB
    requires Laid(db) && m < |db.matches|
  {
    if db.matches[m].group.Some? && GroupStageDone(db) then ResolveGroups(db) else db
  }

  datatype Request =
    | Submit(m: nat, cfg: Config, sets: seq<SetScore>, completion: Completion, winnerSlot: int)
    | SetStatus(m: nat, live: bool)

  /** The winner a verdict names, if any. */
  function Named(db: DB, m: nat, v: Verdict): Option<Team>
    requires Laid(db) && m < |db.matches| && v.Accepted?
  {
    if 1 <= v.winner <= 2 then TeamAt(db, m, v.winner) else None
  }

  /** SubmitScore once the score has been validated. */
  function SubmitJudged(db: DB, m: nat, sets: seq<SetScore>, v: Verdict): (r: (Outcome, DB))
    requires Laid(db)
    ensures Laid(r.1)
  {
    if m >= |db.matches| then (NotFound, db)
    else if v.Refused? then (Invalid(v.violations), db)
    else if v.winner != 0 && Named(db, m, v).None? then (SlotEmpty, db)
    else
      var saved := SaveScore(db, m, sets, v.status, Named(db, m, v));
      if saved.0 == Done && Decided(v.status) && m < |saved.1.matches|
      then (Done, MaybeResolveGroups(saved.1, m)) else saved
  }

  function SubmitScore(db: DB, m: nat, cfg: Config, sets: seq<SetScore>, c: Completion, winnerSlot: int): (Outcome, DB)
    requires Laid(db)
  {
    SubmitJudged(db, m, sets, Judge(cfg, sets, c, winnerSlot))
  }

  function ChangeStatus(db: DB, m: nat, live: bool): (Outcome, DB)
    requires Laid(db)
  {
    if m >= |db.matches| then (NotFound, db)
    else if Decided(db.matches[m].status) then (Immutable, db)
    else (Done, db.(matches := db.matches[m := db.matches[m].(status := if live then Live else Scheduled)]))
  }

  function Step(db: DB, q: Request): (r: (Outcome, DB))
    requires Laid(db)
    ensures Laid(r.1)
  {
    match q
    case Submit(m, cfg, sets, c, w) => SubmitScore(db, m, cfg, sets, c, w)
    case SetStatus(m, live) => ChangeStatus(db, m, live)
  }

  function Run(db: DB, qs: seq<Request>): (r: DB)
    requires Laid(db)
    ensures Laid(r)
  {
    if qs == [] then db else Step(Run(db, qs[..|qs| - 1]), qs[|qs| - 1]).1
  }
}
