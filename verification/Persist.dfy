/** Storing a generated draw in three passes (draw/service.go). */
module Persist {
  import opened Wrappers
  import opened Scoring
  import opened Tables
  import opened Progression
  import opened Coherence
  import opened Bracket

  /** insertSlot: a feed is written as empty until pass 3. */
  function SourceOf(s: Slot): Source {
    match s
    case Entrant(_) => Fixed
    case ByeSlot => ByeSource
    case Placement(g, r) => GroupPlacement(g, r)
    case Feed => Empty
  }

  function InsertedRow(m: Match, i: nat, side: int): SlotRow {
    var s := SideOf(m, side);
    SlotRow(i, side, if s.Entrant? then Some(s.team) else None, SourceOf(s))
  }

  function InsertedSlots(ms: seq<Match>): seq<SlotRow> {
    seq(2 * |ms|, k requires 0 <= k < 2 * |ms| => InsertedRow(ms[k / 2], k / 2, k % 2 + 1))
  }

  function InsertedMatch(m: Match): MatchRow {
    MatchRow(if m.slot1 == ByeSlot || m.slot2 == ByeSlot then Bye else Pending, None,
             if m.group >= 0 then Some(m.group) else None,
             if m.next >= 0 then Some(m.next) else None, if m.next >= 0 then m.nextSlot else 0)
  }

  /** Edges stay inside the draw and go forward. */
  predicate EdgesInside(ms: seq<Match>) {
    forall i :: 0 <= i < |ms| ==> ms[i].next < 0 || (i < ms[i].next < |ms| && 1 <= ms[i].nextSlot <= 2)
  }

  function FedRow(m: Match): int {
    2 * m.next + m.nextSlot - 1
  }

  /** Pass 3 over the first n matches: an empty slot is stamped with its feeder. */
  function Typed(ms: seq<Match>, n: nat): (r: seq<SlotRow>)
    requires EdgesInside(ms) && n <= |ms|
    ensures |r| == 2 * |ms|
  {
    if n == 0 then InsertedSlots(ms)
    else
      var r := Typed(ms, n - 1);
      var m := ms[n - 1];
      if m.next >= 0 && r[FedRow(m)].source == Empty
      then r[FedRow(m) := r[FedRow(m)].(source := MatchWinner(n - 1))] else r
  }

  function Persisted(ms: seq<Match>, names: map<Team, int>): DB
    requires EdgesInside(ms)
  {
    DB(seq(|ms|, i requires 0 <= i < |ms| => InsertedMatch(ms[i])), Typed(ms, |ms|), seq(|ms|, _ => []), names)
  }

  /** The groups rows created up front reach every placement named by a slot. */
  function MaxGroup(ms: seq<Match>): int {
    if ms == [] then -1
    else
      var g := MaxGroup(ms[..|ms| - 1]);
      if ms[|ms| - 1].group > g then ms[|ms| - 1].group else g
  }

  predicate KnownGroup(s: Slot, maxGroup: int) {
    s.Placement? ==> s.group <= maxGroup
  }

  predicate KnownGroups(ms: seq<Match>) {
    forall i :: 0 <= i < |ms| ==> KnownGroup(ms[i].slot1, MaxGroup(ms)) && KnownGroup(ms[i].slot2, MaxGroup(ms))
  }

  // What a stored draw looks like

  ghost predicate FedBy(ms: seq<Match>, m: nat, side: int, i: int) {
    0 <= i < m < |ms| && OnlyFeeder(ms, m, side, i)
  }

  ghost predicate FeedOk(ms: seq<Match>, m: nat, side: int)
    requires m < |ms|
  {
    ms[m].group < 0 && exists i :: FedBy(ms, m, side, i) && ms[i].group < 0
  }

  ghost predicate SlotOk(ms: seq<Match>, m: nat, side: int, names: map<Team, int>)
    requires m < |ms|
  {
    match SideOf(ms[m], side)
    case Entrant(t) => t in names
    case ByeSlot => ms[m].group < 0
    case Placement(_, r) => r >= 1 && ms[m].group < 0 && NamesDistinct(names)
    case Feed => FeedOk(ms, m, side)
  }

  /** A draw whose every slot has exactly one source. */
  ghost predicate DrawOk(ms: seq<Match>, names: map<Team, int>) {
    && EdgesInside(ms)
    && (forall m, side :: 0 <= m < |ms| && 1 <= side <= 2 ==> SlotOk(ms, m, side, names))
    && (forall m :: 0 <= m < |ms| && ms[m].group >= 0 ==>
          ms[m].slot1.Entrant? && ms[m].slot2.Entrant? && ms[m].slot1 != ms[m].slot2)
  }

  /** Pass 3 only ever upgrades empty slots. */
  lemma {:induction false} TypedKeeps(ms: seq<Match>, n: nat, k: nat)
    requires EdgesInside(ms) && n <= |ms| && k < 2 * |ms|
    ensures var row, was := Typed(ms, n)[k], InsertedSlots(ms)[k];
            row.owner == was.owner && row.side == was.side && row.team == was.team
            && (was.source != Empty ==> row == was)
  {
    if n > 0 { TypedKeeps(ms, n - 1, k); }
  }

  /** A fed slot ends up naming its one feeder. */
  lemma {:induction false} TypedFeed(ms: seq<Match>, n: nat, m: nat, side: nat, i: nat)
    requires EdgesInside(ms) && n <= |ms| && 1 <= side <= 2
    requires FedBy(ms, m, side, i) && SideOf(ms[m], side) == Feed
    ensures Typed(ms, n)[2 * m + side - 1].source == if i < n then MatchWinner(i) else Empty
  {
    if n > 0 {
      TypedFeed(ms, n - 1, m, side, i);
      assert (ms[n - 1].next == m && ms[n - 1].nextSlot == side) <==> n - 1 == i;
    }
  }

  /** The stored row of a slot. */
  lemma StoredRow(ms: seq<Match>, names: map<Team, int>, m: nat, side: nat)
    requires DrawOk(ms, names) && m < |ms| && 1 <= side <= 2
    ensures var row := Persisted(ms, names).slots[2 * m + side - 1];
            && row.owner == m && row.side == side
            && row.team == (if SideOf(ms[m], side).Entrant? then Some(SideOf(ms[m], side).team) else None)
            && (SideOf(ms[m], side) != Feed ==> row.source == SourceOf(SideOf(ms[m], side)))
            && (SideOf(ms[m], side) == Feed ==>
                  row.source.MatchWinner? && FedBy(ms, m, side, row.source.feeder) && ms[row.source.feeder].group < 0)
  {
    var k := 2 * m + side - 1;
    TypedKeeps(ms, |ms|, k);
    assert k / 2 == m && k % 2 + 1 == side;
    assert SlotOk(ms, m, side, names);
    if SideOf(ms[m], side) == Feed {
      var i :| FedBy(ms, m, side, i) && ms[i].group < 0;
      TypedFeed(ms, |ms|, m, side, i);
    }
  }

  /** The slot is fed, or it is the given entry. */
  predicate FedOrEntry(m: Match, side: int, entry: Slot) {
    m.group < 0 && (SideOf(m, side) == Feed || SideOf(m, side) == entry)
  }

  predicate HoldsEntry(row: SlotRow, entry: Slot) {
    row.source == SourceOf(entry) && row.team == if entry.Entrant? then Some(entry.team) else None
  }

  /** The stored row k of a knockout match: fed by a match, or its entry. */
  lemma LeafRow(ms: seq<Match>, names: map<Team, int>, k: nat, entry: Slot)
    requires DrawOk(ms, names) && k / 2 < |ms| && FedOrEntry(ms[k / 2], k % 2 + 1, entry)
    ensures Persisted(ms, names).matches[k / 2].group == None
    ensures Persisted(ms, names).slots[k].source.MatchWinner? || HoldsEntry(Persisted(ms, names).slots[k], entry)
  {
    StoredRow(ms, names, k / 2, k % 2 + 1);
  }

  /** After pass 3 no slot is left empty. */
  lemma NoSlotLeftEmpty(ms: seq<Match>, names: map<Team, int>)
    requires DrawOk(ms, names)
    ensures forall k :: 0 <= k < 2 * |ms| ==> Persisted(ms, names).slots[k].source != Empty
  {
    forall k | 0 <= k < 2 * |ms|
      ensures Persisted(ms, names).slots[k].source != Empty
    {
      StoredRow(ms, names, k / 2, k % 2 + 1);
    }
  }

  lemma PersistedIsLaid(ms: seq<Match>, names: map<Team, int>)
    requires EdgesInside(ms)
    ensures Laid(Persisted(ms, names))
  {
    forall k | 0 <= k < 2 * |ms|
      ensures Persisted(ms, names).slots[k].owner == k / 2 && Persisted(ms, names).slots[k].side == k % 2 + 1
    {
      TypedKeeps(ms, |ms|, k);
    }
  }

  /** Before any match is decided no group has places to give. */
  lemma NoPlacesYet(db: DB, g: nat)
    requires Laid(db) && forall m :: 0 <= m < |db.matches| ==> db.matches[m].group.Some? ==> !Decided(db.matches[m].status)
    ensures Placed(db, g) == []
  {
    if GroupComplete(db, g) {
      assert forall m :: 0 <= m < |db.matches| ==> !InGroup(db, m, g);
      NobodyIn(db, g, |db.slots|);
    }
  }

  lemma {:induction false} NobodyIn(db: DB, g: nat, n: nat)
    requires Laid(db) && n <= |db.slots| && forall m :: 0 <= m < |db.matches| ==> !InGroup(db, m, g)
    ensures TeamsOf(db, g, n) == []
  {
    if n > 0 { NobodyIn(db, g, n - 1); }
  }

  /** A freshly stored draw satisfies the invariant of the progression machine. */
  lemma FreshDrawIsCoherent(ms: seq<Match>, names: map<Team, int>)
    requires DrawOk(ms, names)
    ensures Coherent(Persisted(ms, names))
  {
    var db := Persisted(ms, names);
    PersistedIsLaid(ms, names);
    forall k | 0 <= k < |db.slots|
      ensures RowShape(db, db.slots[k])
      ensures SlotSettled(db, k)
    {
      StoredRow(ms, names, k / 2, k % 2 + 1);
      assert SlotOk(ms, k / 2, k % 2 + 1, names);
      if db.slots[k].source.GroupPlacement? {
        NoPlacesYet(db, db.slots[k].source.group);
      }
    }
    forall m | 0 <= m < |db.matches|
      ensures GroupMatchShape(db, m)
    {
      StoredRow(ms, names, m, 1);
      StoredRow(ms, names, m, 2);
    }
  }

  /** Every feed of the stored draw names a different match. */
  lemma StoredFeedsDiffer(ms: seq<Match>, names: map<Team, int>, j: nat, k: nat)
    requires DrawOk(ms, names) && j < 2 * |ms| && k < 2 * |ms|
    requires Persisted(ms, names).slots[j].source.MatchWinner?
    requires Persisted(ms, names).slots[j].source == Persisted(ms, names).slots[k].source
    ensures j == k
  {
    StoredRow(ms, names, j / 2, j % 2 + 1);
    StoredRow(ms, names, k / 2, k % 2 + 1);
    var i := Persisted(ms, names).slots[j].source.feeder;
    assert FedBy(ms, j / 2, j % 2 + 1, i) && FedBy(ms, k / 2, k % 2 + 1, i);
    assert ms[i].next == j / 2 == k / 2;
  }

  /** The stored match: a bye exactly when one of its own slots is a bye, otherwise pending,
      without winner or sets, with its group and the slot it feeds. */
  lemma StoredMatch(ms: seq<Match>, names: map<Team, int>, m: nat)
    requires DrawOk(ms, names) && m < |ms|
    ensures var db := Persisted(ms, names);
            var row, bye := db.matches[m], db.slots[2 * m].source == ByeSource || db.slots[2 * m + 1].source == ByeSource;
            && (bye ==> row.status == Bye) && (!bye ==> row.status == Pending)
            && row.winner == None && db.scores[m] == []
            && (ms[m].group < 0 ==> row.group == None) && (ms[m].group >= 0 ==> row.group == Some(ms[m].group))
            && (ms[m].next < 0 ==> row.next == None && row.nextSlot == 0)
            && (ms[m].next >= 0 ==> row.next == Some(ms[m].next) && row.nextSlot == ms[m].nextSlot)
  {
    StoredRow(ms, names, m, 1);
    StoredRow(ms, names, m, 2);
  }

  lemma {:induction false} MaxGroupIs(ms: seq<Match>, g: int)
    requires g >= 0
    ensures g <= MaxGroup(ms) <==> exists m :: 0 <= m < |ms| && ms[m].group >= g
  {
    if ms != [] {
      var front, n := ms[..|ms| - 1], |ms| - 1;
      MaxGroupIs(front, g);
      if m :| 0 <= m < |front| && front[m].group >= g { assert ms[m].group >= g; }
      if m :| 0 <= m < |ms| && ms[m].group >= g { assert m == n || front[m].group >= g; }
    }
  }

  /** The group named by a slot is one of those that matches of the draw belong to, or an
      earlier one. */
  predicate GroupExists(ms: seq<Match>, s: Slot) {
    s.Placement? ==> exists m :: 0 <= m < |ms| && ms[m].group >= s.group
  }

  /** Storing a draw succeeds exactly when every place its slots name is of such a group. */
  lemma KnownGroupsIff(ms: seq<Match>)
    ensures KnownGroups(ms) <==> forall i :: 0 <= i < |ms| ==> GroupExists(ms, ms[i].slot1) && GroupExists(ms, ms[i].slot2)
  {
    forall s: Slot
      ensures KnownGroup(s, MaxGroup(ms)) <==> GroupExists(ms, s)
    {
      if s.Placement? { MaxGroupIs(ms, s.group); }
    }
  }
}
