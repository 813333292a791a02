/** The event's rows as the repository changes them: storing a draw in three passes, saving a
    score, rebuilding what it feeds, resolving groups; each method proved equal to a
    function on the tables. */
module MatchStore {
  import opened Seqs
  import opened Wrappers
  import opened Scoring
  import opened Tables
  import opened Progression
  import opened Bracket
  import opened Persist

  // One method a transaction. Requests are served one at a time; a refused transaction is
  // rolled back.

  /** How many rows a rebuild rewrites: the counts of the audit entry. */
  function ChangedRows(db: DB, supply: Supply, n: nat): nat
    requires n <= |db.slots|
  {
    if n == 0 then 0 else ChangedRows(db, supply, n - 1) + (if WouldChange(supply, db.slots[n - 1]) then 1 else 0)
  }

  /** How many of the first n rows hold another team than before: those fed by matches, or
      those naming a place of a group. */
  ghost function Moved(was: seq<SlotRow>, now: seq<SlotRow>, placed: bool, n: nat): nat
    requires n <= |was| == |now|
  {
    if n == 0 then 0
    else
      var row := was[n - 1];
      Moved(was, now, placed, n - 1)
        + (if row.source.GroupPlacement? == placed && row.team != now[n - 1].team then 1 else 0)
  }

  /** A rebuild changes the team of each row it counts, and of no row of the other kind. */
  lemma {:induction false} RefillMoves(db: DB, supply: Supply, n: nat)
    requires Laid(db) && n <= |db.slots|
    ensures Moved(db.slots, Refill(db, supply).slots, supply.PlacesOf?, n) == ChangedRows(db, supply, n)
    ensures Moved(db.slots, Refill(db, supply).slots, !supply.PlacesOf?, n) == 0
  {
    if n > 0 {
      RefillMoves(db, supply, n - 1);
      assert Refill(db, supply).slots[n - 1] == Fill(supply, db.slots[n - 1]);
    }
  }

  lemma {:induction false} NothingMoved(was: seq<SlotRow>, placed: bool, n: nat)
    requires n <= |was|
    ensures Moved(was, was, placed, n) == 0
  {
    if n > 0 { NothingMoved(was, placed, n - 1); }
  }

  /** Two changes of which only one moves rows of the kind. */
  lemma {:induction false} MovedOnce(was: seq<SlotRow>, mid: seq<SlotRow>, now: seq<SlotRow>, placed: bool, n: nat)
    requires n <= |was| == |mid| == |now|
    requires forall k :: 0 <= k < |was| ==> was[k].source == mid[k].source
    ensures Moved(was, mid, placed, n) == 0 ==> Moved(was, now, placed, n) == Moved(mid, now, placed, n)
    ensures Moved(mid, now, placed, n) == 0 ==> Moved(was, now, placed, n) == Moved(was, mid, placed, n)
  {
    if n > 0 { MovedOnce(was, mid, now, placed, n - 1); }
  }

  /** A whole rebuild, refused or not. */
  lemma RebuildMoves(db: DB, supply: Supply)
    requires Laid(db)
    ensures var now, n := Rebuild(db, supply).1.slots, |db.slots|;
            && SameSources(db.slots, now) && Moved(db.slots, now, !supply.PlacesOf?, n) == 0
            && Moved(db.slots, now, supply.PlacesOf?, n) == if LockedRows(db, supply, n) == [] then ChangedRows(db, supply, n) else 0
  {
    NothingMoved(db.slots, supply.PlacesOf?, |db.slots|);
    NothingMoved(db.slots, !supply.PlacesOf?, |db.slots|);
    RefillMoves(db, supply, |db.slots|);
  }

  predicate SameSources(was: seq<SlotRow>, now: seq<SlotRow>) {
    |was| == |now| && forall k :: 0 <= k < |was| ==> was[k].source == now[k].source
  }

  /** The placement slots whose place exists. */
  ghost function Resolvable(db: DB, n: nat): nat
    requires Laid(db) && n <= |db.slots|
  {
    if n == 0 then 0
    else
      var row := db.slots[n - 1];
      Resolvable(db, n - 1)
        + (if row.source.GroupPlacement? && 1 <= row.source.rank <= |Standings(db, row.source.group)| then 1 else 0)
  }

  class Store {
    var matches: seq<MatchRow>
    var slots: seq<SlotRow>
    var scores: seq<seq<SetScore>>
    const names: map<Team, int>

    ghost function State(): DB
      reads this
    {
      DB(matches, slots, scores, names)
    }

    ghost predicate Valid()
      reads this
    {
      Laid(State())
    }

    constructor (db: DB)
      requires Laid(db)
      ensures Valid() && State() == db
    {
      matches, slots, scores, names := db.matches, db.slots, db.scores, db.names;
    }

    /** Pass 1 of persistWithGroups: a row for every match, with its group. */
    method InsertMatches(ms: seq<Match>)
      modifies this`matches
      ensures |matches| == |ms|
      ensures forall i :: 0 <= i < |ms| ==> matches[i] == InsertedMatch(ms[i]).(next := None, nextSlot := 0)
    {
      matches := [];
      for i := 0 to |ms|
        invariant |matches| == i
        invariant forall j :: 0 <= j < i ==> matches[j] == InsertedMatch(ms[j]).(next := None, nextSlot := 0)
      {
        var m := ms[i];
        var status := if m.slot1 == ByeSlot || m.slot2 == ByeSlot then Bye else Pending;
        matches := matches + [MatchRow(status, None, if m.group >= 0 then Some(m.group) else None, None, 0)];
      }
    }

    /** Pass 2: progression and slots; a slot naming an unknown group fails. */
    method InsertSlots(ms: seq<Match>, maxGroup: int) returns (ok: bool)
      requires |matches| == |ms|
      requires forall i :: 0 <= i < |ms| ==> matches[i] == InsertedMatch(ms[i]).(next := None, nextSlot := 0)
      modifies this`matches, this`slots
      ensures ok <==> forall i :: 0 <= i < |ms| ==> KnownGroup(ms[i].slot1, maxGroup) && KnownGroup(ms[i].slot2, maxGroup)
      ensures ok ==> slots == InsertedSlots(ms) && matches == seq(|ms|, i requires 0 <= i < |ms| => InsertedMatch(ms[i]))
    {
      slots := [];
      for i := 0 to |ms|
        invariant |matches| == |ms| && |slots| == 2 * i
        invariant forall j :: 0 <= j < |ms| ==>
                    matches[j] == if j < i then InsertedMatch(ms[j]) else InsertedMatch(ms[j]).(next := None, nextSlot := 0)
        invariant forall k :: 0 <= k < 2 * i ==> slots[k] == InsertedRow(ms[k / 2], k / 2, k % 2 + 1)
        invariant forall j :: 0 <= j < i ==> KnownGroup(ms[j].slot1, maxGroup) && KnownGroup(ms[j].slot2, maxGroup)
      {
        if ms[i].next >= 0 {
          matches := matches[i := matches[i].(next := Some(ms[i].next), nextSlot := ms[i].nextSlot)];
        }
        if !KnownGroup(ms[i].slot1, maxGroup) || !KnownGroup(ms[i].slot2, maxGroup) {
          return false;
        }
        slots := slots + [InsertedRow(ms[i], i, 1), InsertedRow(ms[i], i, 2)];
      }
      ok := true;
    }

    /** persistWithGroups: replace the event's draw, all or nothing. */
    method PersistWithGroups(ms: seq<Match>) returns (ok: bool)
      requires Valid() && EdgesInside(ms)
      modifies this
      ensures Valid()
      ensures ok <==> KnownGroups(ms)
      ensures State() == if ok then Persisted(ms, names) else old(State())
    {
      var matches0, slots0, scores0 := matches, slots, scores;
      var maxGroup := -1;
      for i := 0 to |ms|
        invariant State() == old(State())
        invariant maxGroup == MaxGroup(ms[..i])
      {
        assert ms[..i + 1][..i] == ms[..i];
        if ms[i].group > maxGroup {
          maxGroup := ms[i].group;
        }
      }
      assert ms[..|ms|] == ms;
      InsertMatches(ms);
      ok := InsertSlots(ms, maxGroup);
      if !ok {
        matches, slots, scores := matches0, slots0, scores0;
        return;
      }
      scores := seq(|ms|, _ => []);
      TypeFeeds(ms);
      PersistedIsLaid(ms, names);
    }

    /** Pass 3: stamp every slot that is still empty with its feeder. */
    method TypeFeeds(ms: seq<Match>)
      requires EdgesInside(ms) && slots == InsertedSlots(ms)
      modifies this`slots
      ensures slots == Typed(ms, |ms|)
    {
      for i := 0 to |ms|
        invariant slots == Typed(ms, i)
      {
        var m := ms[i];
        if m.next >= 0 {
          var k := 2 * m.next + m.nextSlot - 1;
          if slots[k].source == Empty {
            slots := slots[k := slots[k].(source := MatchWinner(i))];
          }
        }
      }
    }

    method HasStarted(m: nat) returns (r: bool)
      requires Valid() && m < |matches|
      ensures r == Started(State(), m)
    {
      var s := matches[m].status;
      r := (s != Pending && s != Scheduled && s != Bye) || |scores[m]| > 0;
    }

    /** Steps 3 to 8 of SaveScore: the consumers of one match's winner. */
    method RebuildWinnerFeeds(m: nat, winner: Option<Team>) returns (changed: nat, locked: seq<nat>)
      requires Valid()
      modifies this`slots
      ensures Valid()
      ensures locked == LockedRows(old(State()), WinnerOf(m, winner), |slots|)
      ensures State() == if locked == [] then Refill(old(State()), WinnerOf(m, winner)) else old(State())
      ensures changed == if locked == [] then ChangedRows(old(State()), WinnerOf(m, winner), |slots|) else 0
    {
      ghost var db, supply := State(), WinnerOf(m, winner);
      changed, locked := 0, [];
      for k := 0 to |slots|
        invariant State() == db
        invariant locked == LockedRows(db, supply, k)
      {
        if slots[k].source == MatchWinner(m) && slots[k].team != winner {
          var started := HasStarted(slots[k].owner);
          if started {
            locked := locked + [k];
          }
        }
      }
      if |locked| > 0 {
        return;
      }
      changed := FillWinner(m, winner);
    }

    method FillWinner(m: nat, winner: Option<Team>) returns (changed: nat)
      requires Valid()
      modifies this`slots
      ensures Valid() && State() == Refill(old(State()), WinnerOf(m, winner))
      ensures changed == ChangedRows(old(State()), WinnerOf(m, winner), |slots|)
    {
      ghost var db, supply := State(), WinnerOf(m, winner);
      changed := 0;
      for k := 0 to |slots|
        invariant |slots| == |db.slots| && State() == db.(slots := slots)
        invariant forall j :: 0 <= j < |slots| ==> slots[j] == if j < k then Fill(supply, db.slots[j]) else db.slots[j]
        invariant changed == ChangedRows(db, supply, k)
      {
        if slots[k].source == MatchWinner(m) && slots[k].team != winner {
          slots := slots[k := slots[k].(team := winner)];
          changed := changed + 1;
        }
      }
      assert slots == Refill(db, supply).slots;
    }

    /** RebuildGroupPlacements: the slots that name a place in the group. */
    method RebuildGroupPlacements(g: nat, groupComplete: bool) returns (changed: nat, locked: seq<nat>)
      requires Valid()
      modifies this`slots
      ensures Valid()
      ensures var supply := PlacesOf(g, if groupComplete then Map(TeamOf, Standings(old(State()), g)) else []);
              && locked == LockedRows(old(State()), supply, |slots|)
              && State() == (if locked == [] then Refill(old(State()), supply) else old(State()))
              && changed == if locked == [] then ChangedRows(old(State()), supply, |slots|) else 0
    {
      ghost var db := State();
      var placements := if groupComplete then Map(TeamOf, Standings(DB(matches, slots, scores, names), g)) else [];
      ghost var supply := PlacesOf(g, placements);
      changed, locked := 0, [];
      for k := 0 to |slots|
        invariant State() == db
        invariant locked == LockedRows(db, supply, k)
      {
        if slots[k].source.GroupPlacement? && slots[k].source.group == g {
          var want := PlaceAt(placements, slots[k].source.rank);
          if slots[k].team != want {
            var started := HasStarted(slots[k].owner);
            if started {
              locked := locked + [k];
            }
          }
        }
      }
      if |locked| > 0 {
        return;
      }
      changed := FillPlaces(g, placements);
    }

    method FillPlaces(g: nat, placements: seq<Team>) returns (changed: nat)
      requires Valid()
      modifies this`slots
      ensures Valid() && State() == Refill(old(State()), PlacesOf(g, placements))
      ensures changed == ChangedRows(old(State()), PlacesOf(g, placements), |slots|)
    {
      ghost var db, supply := State(), PlacesOf(g, placements);
      changed := 0;
      for k := 0 to |slots|
        invariant |slots| == |db.slots| && State() == db.(slots := slots)
        invariant forall j :: 0 <= j < |slots| ==> slots[j] == if j < k then Fill(supply, db.slots[j]) else db.slots[j]
        invariant changed == ChangedRows(db, supply, k)
      {
        if slots[k].source.GroupPlacement? && slots[k].source.group == g {
          var want := PlaceAt(placements, slots[k].source.rank);
          if slots[k].team != want {
            slots := slots[k := slots[k].(team := want)];
            changed := changed + 1;
          }
        }
      }
      assert slots == Refill(db, supply).slots;
    }

    /** Matches of the group that are not over yet. */
    method Remaining(g: nat) returns (n: nat)
      requires Valid()
      ensures n == 0 <==> GroupComplete(State(), g)
    {
      n := 0;
      for m := 0 to |matches|
        invariant n == 0 <==> forall i :: 0 <= i < m && InGroup(State(), i, g) ==> Decided(matches[i].status)
      {
        if matches[m].group == Some(g) && !Decided(matches[m].status) {
          n := n + 1;
        }
      }
    }

    /** Delete the match's set rows and insert the submitted ones. */
    method ReplaceSets(m: nat, sets: seq<SetScore>)
      requires Valid() && m < |matches|
      modifies this`scores
      ensures State() == old(State()).(scores := old(scores)[m := sets])
    {
      ghost var before := scores;
      scores := scores[m := []];
      for i := 0 to |sets|
        invariant scores == before[m := sets[..i]]
      {
        scores := scores[m := scores[m] + [sets[i]]];
        assert sets[..i + 1] == sets[..i] + [sets[i]];
      }
      assert sets[..|sets|] == sets;
    }

    method FeedConsumers(m: nat, before: MatchRow, winner: Option<Team>) returns (r: Outcome, changed: nat)
      requires Valid()
      modifies this`slots
      ensures Valid()
      ensures (r, State()) == FeedStep(old(State()), m, before, winner)
      ensures SameSources(old(slots), slots)
      ensures Moved(old(slots), slots, false, |slots|) == changed && Moved(old(slots), slots, true, |slots|) == 0
    {
      r, changed := Done, 0;
      NothingMoved(slots, false, |slots|);
      NothingMoved(slots, true, |slots|);
      RebuildMoves(State(), WinnerOf(m, winner));
      if before.winner != winner {
        var locked;
        changed, locked := RebuildWinnerFeeds(m, winner);
        if |locked| > 0 {
          r := Locked(locked);
        }
      }
    }

    method PlaceGroup(before: MatchRow, status: Status) returns (r: Outcome, changed: nat)
      requires Valid()
      modifies this`slots
      ensures Valid()
      ensures (r, State()) == PlaceStep(old(State()), before, status)
      ensures SameSources(old(slots), slots)
      ensures Moved(old(slots), slots, true, |slots|) == changed && Moved(old(slots), slots, false, |slots|) == 0
    {
      r, changed := Done, 0;
      NothingMoved(slots, false, |slots|);
      NothingMoved(slots, true, |slots|);
      if before.group.Some? && (Decided(before.status) || Decided(status)) {
        var remaining := Remaining(before.group.value);
        RebuildMoves(State(), PlacesOf(before.group.value, Placed(State(), before.group.value)));
        var locked;
        changed, locked := RebuildGroupPlacements(before.group.value, remaining == 0);
        if |locked| > 0 {
          r := Locked(locked);
        }
      }
    }

    /** One transaction: replace the sets, update the match, rebuild the consumers of
        its winner and its group's placements; any locked slot rolls everything back.
        The counts of the audit entry are the slots that changed hands. */
    method SaveScoreTx(m: nat, sets: seq<SetScore>, status: Status, winner: Option<Team>)
      returns (r: Outcome, downstream: nat, placements: nat)
      requires Valid()
      modifies this
      ensures Valid()
      ensures (r, State()) == SaveScore(old(State()), m, sets, status, winner)
      ensures SameSources(old(slots), slots)
      ensures downstream == Moved(old(slots), slots, false, |slots|)
      ensures placements == Moved(old(slots), slots, true, |slots|)
    {
      NothingMoved(slots, false, |slots|);
      NothingMoved(slots, true, |slots|);
      downstream, placements := 0, 0;
      if m >= |matches| {
        return NotFound, 0, 0;
      }
      var matches0, slots0, scores0 := matches, slots, scores;
      var before := matches[m];
      ReplaceSets(m, sets);
      matches := matches[m := matches[m].(status := status, winner := winner)];
      r, downstream := FeedConsumers(m, before, winner);
      ghost var fed := slots;
      if r == Done {
        r, placements := PlaceGroup(before, status);
        MovedOnce(slots0, fed, slots, false, |slots|);
        MovedOnce(slots0, fed, slots, true, |slots|);
      }
      if r != Done {
        matches, slots, scores := matches0, slots0, scores0;
        downstream, placements := 0, 0;
      }
    }

    /** ResolveGroups: every placement slot from current standings, no lock asked. */
    method ResolveGroupsTx() returns (filled: nat)
      requires Valid()
      modifies this`slots
      ensures Valid()
      ensures State() == ResolveGroups(old(State()))
      ensures filled == Resolvable(old(State()), |slots|)
    {
      ghost var db := State();
      var current := DB(matches, slots, scores, names);
      filled := 0;
      for k := 0 to |slots|
        invariant |slots| == |db.slots| && State() == db.(slots := slots)
        invariant forall j :: 0 <= j < |slots| ==> slots[j] == if j < k then ResolveRow(db, db.slots[j]) else db.slots[j]
        invariant filled == Resolvable(db, k)
      {
        if slots[k].source.GroupPlacement? {
          var st, rank := Standings(current, slots[k].source.group), slots[k].source.rank;
          if 1 <= rank <= |st| {
            slots := slots[k := slots[k].(team := Some(st[rank - 1].team))];
            filled := filled + 1;
          }
        }
      }
      assert slots == ResolveGroups(db).slots;
    }

    /** Resolve the knockout once every group match is over. */
    method MaybeResolve(m: nat) returns (resolved: bool)
      requires Valid() && m < |matches|
      modifies this`slots
      ensures Valid()
      ensures State() == MaybeResolveGroups(old(State()), m)
      ensures resolved <==> matches[m].group.Some? && GroupStageDone(old(State()))
    {
      resolved := false;
      if matches[m].group.None? {
        return;
      }
      var remaining := 0;
      for i := 0 to |matches|
        invariant State() == old(State())
        invariant remaining == 0 <==> forall j :: 0 <= j < i && matches[j].group.Some? ==> Decided(matches[j].status)
      {
        if matches[i].group.Some? && !Decided(matches[i].status) {
          remaining := remaining + 1;
        }
      }
      if remaining > 0 {
        return;
      }
      var filled := ResolveGroupsTx();
      resolved := true;
    }

    /** participantForSlot: search the match's rows for the slot. */
    method ParticipantForSlot(m: nat, side: int) returns (t: Option<Team>)
      requires Valid() && m < |matches|
      ensures t == if 1 <= side <= 2 then TeamAt(State(), m, side) else None
    {
      for k := 2 * m to 2 * m + 2
        invariant forall j :: 2 * m <= j < k ==> slots[j].side != side
      {
        if slots[k].side == side {
          return slots[k].team;
        }
      }
      t := None;
    }

    /** The score endpoint: validate, name the winner, save, resolve the groups. */
    method SubmitScoreRequest(m: nat, cfg: Config, sets: seq<SetScore>, c: Completion, winnerSlot: int) returns (r: Outcome)
      requires Valid()
      modifies this
      ensures Valid()
      ensures (r, State()) == SubmitScore(old(State()), m, cfg, sets, c, winnerSlot)
    {
      if m >= |matches| {
        return NotFound;
      }
      var verdict := ValidateScore(cfg, sets, c, winnerSlot);
      if verdict.Refused? {
        return Invalid(verdict.violations);
      }
      var winner: Option<Team> := None;
      if verdict.winner != 0 {
        winner := ParticipantForSlot(m, verdict.winner);
        if winner.None? {
          return SlotEmpty;
        }
      }
      r := SaveAndResolve(m, sets, verdict.status, winner);
    }

    method SaveAndResolve(m: nat, sets: seq<SetScore>, status: Status, winner: Option<Team>) returns (r: Outcome)
      requires Valid()
      modifies this
      ensures Valid()
      ensures var saved := SaveScore(old(State()), m, sets, status, winner);
              (r, State()) == if saved.0 == Done && Decided(status) && m < |saved.1.matches|
                              then (Done, MaybeResolveGroups(saved.1, m)) else saved
    {
      var downstream, placements;
      r, downstream, placements := SaveScoreTx(m, sets, status, winner);
      if r == Done && Decided(status) && m < |matches| {
        var resolved := MaybeResolve(m);
      }
    }

    /** The status endpoint: scheduling state only, never out of a decided status. */
    method SetStatusRequest(m: nat, live: bool) returns (r: Outcome)
      requires Valid()
      modifies this`matches
      ensures Valid()
      ensures (r, State()) == ChangeStatus(old(State()), m, live)
    {
      if m >= |matches| {
        return NotFound;
      }
      if Decided(matches[m].status) {
        return Immutable;
      }
      matches := matches[m := matches[m].(status := if live then Live else Scheduled)];
      r := Done;
    }
  }
}
