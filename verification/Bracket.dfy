/** Draw values and the knockout builders: wiring, pairs, slots. */
module Bracket {
  import opened Seqs
  import opened Wrappers
  import opened Powers

  // wireFedRounds (single_elim.go), GenerateFromPairs (manual.go), buildKnockoutFromSlots
  // (group_knockout.go) and validatePairs (draw/service.go).

  /** A participant id. */
  type Team = nat

  /** A position in a generated match: a team, a bye, a group placement
      (group index, 1-based rank) or a feed from an earlier match. */
  datatype Slot =
    | Entrant(team: Team)
    | ByeSlot
    | Placement(group: nat, rank: nat)
    | Feed

  /** A generated match; next is an index into the draw, -1 for none. */
  datatype Match = Match(round: int, inRound: int, slot1: Slot, slot2: Slot,
                         next: int, nextSlot: int, group: int)

  /** One round-1 matchup of the match builder; a missing side is a bye. */
  datatype Pair = Pair(a: Option<Team>, b: Option<Team>)

  function SideOf(m: Match, side: int): Slot {
    if side == 1 then m.slot1 else m.slot2
  }

  /** A match as the builders append it: nothing wired yet. */
  function Fresh(round: int, inRound: int, slot1: Slot, slot2: Slot): Match {
    Match(round, inRound, slot1, slot2, 0, 0, 0)
  }

  ghost predicate IsFirstRound(first: seq<Match>) {
    forall i :: 0 <= i < |first| ==>
      first[i] == Fresh(1, i, first[i].slot1, first[i].slot2)
  }

  // The wired bracket in closed form. Counted from the final, match i has heap
  // number u = 2f - 1 - i: its round is decided by Lg(u), and its winner goes to
  // heap number u / 2, which is match f + i / 2.

  function HeapNumber(f: nat, i: nat): int {
    2 * f - 1 - i
  }

  function WiredMatch(first: seq<Match>, i: nat): Match
    requires i < 2 * |first| - 1
  {
    var f := |first|;
    var u := HeapNumber(f, i);
    Match(1 + Lg(f) - Lg(u),
          2 * Pow2(Lg(u)) - 1 - u,
          if i < f then first[i].slot1 else Feed,
          if i < f then first[i].slot2 else Feed,
          if u == 1 then -1 else f + i / 2,
          if u == 1 then 0 else i % 2 + 1,
          -1)
  }

  function Wired(first: seq<Match>): seq<Match> {
    if first == [] then []
    else seq(2 * |first| - 1, i requires 0 <= i < 2 * |first| - 1 => WiredMatch(first, i))
  }

  /** A match of the wired bracket while its round is still being fed. */
  function Unwired(m: Match): Match {
    m.(next := 0, nextSlot := 0, group := 0)
  }

  /** Loop invariant of both builders: matches before prevStart are wired, the
      round that starts there is seated, and nothing lies above it. */
  ghost predicate RoundsBuilt(first: seq<Match>, ms: seq<Match>, prevStart: int, prevCount: int) {
    && prevCount >= 1
    && prevStart == 2 * |first| - 2 * prevCount
    && |ms| == 2 * |first| - prevCount
    && 0 <= prevStart
    && (forall i :: 0 <= i < prevStart ==> ms[i] == WiredMatch(first, i).(group := 0))
    && (forall i :: prevStart <= i < |ms| ==> ms[i] == Unwired(WiredMatch(first, i)))
  }

  lemma FirstRoundSeated(first: seq<Match>)
    requires |first| >= 1 && IsPow2(|first|) && IsFirstRound(first)
    ensures RoundsBuilt(first, first, 0, |first|)
  {
    forall i | 0 <= i < |first|
      ensures first[i] == Unwired(WiredMatch(first, i))
    {
      LgBetween(Lg(|first|), HeapNumber(|first|, i));
    }
  }

  /** The match appended as number i of the round of 2^h matches. */
  lemma FedMatchSeated(first: seq<Match>, h: nat, i: nat)
    requires 2 * Pow2(h) <= |first| && i < Pow2(h)
    ensures Fresh(1 + Lg(|first|) - h, i, Feed, Feed)
         == Unwired(WiredMatch(first, 2 * |first| - 2 * Pow2(h) + i))
  {
    var j := 2 * |first| - 2 * Pow2(h) + i;
    LgBetween(h, HeapNumber(|first|, j));
  }

  method WireFedRounds(first: seq<Match>) returns (ms: seq<Match>)
    requires |first| >= 1 && IsPow2(|first|) && IsFirstRound(first)
    ensures ms == Wired(first)
  {
    var f := |first|;
    ms := first;
    var prevStart, prevCount := 0, f;
    var top := Log2(2 * f);
    var r := 2;
    FirstRoundSeated(first);
    while r <= top
      invariant 2 <= r <= top + 1
      invariant prevCount == Pow2(top + 1 - r)
      invariant RoundsBuilt(first, ms, prevStart, prevCount)
    {
      ms, prevStart, prevCount := WireRound(first, ms, prevStart, prevCount, r, top - r);
      r := r + 1;
    }
    var last := |ms| - 1;
    ms := ms[last := ms[last].(next := -1, nextSlot := 0)];
    var i := 0;
    while i < |ms|
      invariant 0 <= i <= |ms| == 2 * f - 1
      invariant forall j :: 0 <= j < i ==> ms[j] == WiredMatch(first, j)
      invariant forall j :: i <= j < |ms| ==> ms[j] == WiredMatch(first, j).(group := 0)
    {
      ms := ms[i := ms[i].(group := -1)];
      i := i + 1;
    }
  }

  /** The body of the round loop: append the round above (2^h matches), then
      point the previous round's matches at it. */
  method WireRound(ghost first: seq<Match>, matches: seq<Match>, prevStart: nat, prevCount: nat, r: int, ghost h: nat)
    returns (ms: seq<Match>, roundStart: nat, roundCount: nat)
    requires prevCount == Pow2(h + 1) && prevCount <= |first|
    requires RoundsBuilt(first, matches, prevStart, prevCount)
    requires r == 1 + Lg(|first|) - h
    ensures roundCount == Pow2(h)
    ensures RoundsBuilt(first, ms, roundStart, roundCount)
  {
    roundCount := prevCount / 2;
    roundStart := |matches|;
    ms := SeatRound(first, matches, prevStart, roundCount, r, h);
    var i := 0;
    while i < prevCount
      invariant 0 <= i <= prevCount
      invariant |ms| == roundStart + roundCount
      invariant forall j :: 0 <= j < prevStart + i ==> ms[j] == WiredMatch(first, j).(group := 0)
      invariant forall j :: prevStart + i <= j < |ms| ==> ms[j] == Unwired(WiredMatch(first, j))
    {
      var m := ms[prevStart + i];
      ms := ms[prevStart + i := m.(next := roundStart + i / 2, nextSlot := i % 2 + 1)];
      i := i + 1;
    }
  }

  /** The round's matches, still fed from nowhere. */
  method SeatRound(ghost first: seq<Match>, matches: seq<Match>, ghost prevStart: nat, roundCount: nat, r: int, ghost h: nat)
    returns (ms: seq<Match>)
    requires roundCount == Pow2(h) && 2 * roundCount <= |first| && |matches| == 2 * |first| - 2 * roundCount
    requires r == 1 + Lg(|first|) - h
    requires RoundsBuilt(first, matches, prevStart, 2 * roundCount)
    ensures |ms| == |matches| + roundCount
    ensures forall j :: 0 <= j < prevStart ==> ms[j] == WiredMatch(first, j).(group := 0)
    ensures forall j :: prevStart <= j < |ms| ==> ms[j] == Unwired(WiredMatch(first, j))
  {
    ms := matches;
    var i := 0;
    while i < roundCount
      invariant 0 <= i <= roundCount
      invariant |ms| == |matches| + i
      invariant forall j :: 0 <= j < prevStart ==> ms[j] == WiredMatch(first, j).(group := 0)
      invariant forall j :: prevStart <= j < |ms| ==> ms[j] == Unwired(WiredMatch(first, j))
    {
      FedMatchSeated(first, h, i);
      ms := ms + [Fresh(r, i, Feed, Feed)];
      i := i + 1;
    }
  }

  // buildKnockoutFromSlots: round 1 is the given feeds, padded with byes.

  function Padded(entries: seq<Slot>): (r: seq<Slot>) {
    entries + seq(PowerAtLeast(|entries|) - |entries|, _ => ByeSlot)
  }

  function SlotRound(slots: seq<Slot>): seq<Match> {
    seq(|slots| / 2, i requires 0 <= i < |slots| / 2 => Fresh(1, i, slots[2 * i], slots[2 * i + 1]))
  }

  function Regrouped(ms: seq<Match>, group: int): seq<Match> {
    seq(|ms|, i requires 0 <= i < |ms| => ms[i].(group := group))
  }

  /** Unlike the pairs builder it leaves group 0 for its caller to overwrite. */
  method BuildKnockoutFromSlots(slots: seq<Slot>) returns (ms: seq<Match>)
    ensures ms == Regrouped(Wired(SlotRound(Padded(slots))), 0)
  {
    var size := NextPowerOfTwo(|slots|);
    var entries := PadWithByes(slots, size);
    var rounds := Log2(size);
    ms := SeatPairs(entries);
    if |slots| < 2 {
      assert size == 1;
      return;
    }
    PaddedSize(slots);
    ms := WireSlotRounds(ms, rounds);
  }

  method PadWithByes(slots: seq<Slot>, size: nat) returns (entries: seq<Slot>)
    requires size == PowerAtLeast(|slots|)
    ensures entries == Padded(slots) && |entries| == size
  {
    entries := slots;
    while |entries| < size
      invariant |slots| <= |entries| <= size
      invariant entries == slots + seq(|entries| - |slots|, _ => ByeSlot)
    {
      entries := entries + [ByeSlot];
    }
  }

  method SeatPairs(entries: seq<Slot>) returns (ms: seq<Match>)
    ensures ms == SlotRound(entries)
  {
    ms := [];
    for i := 0 to |entries| / 2
      invariant ms == SlotRound(entries)[..i]
    {
      ms := ms + [Fresh(1, i, entries[i * 2], entries[i * 2 + 1])];
    }
  }

  /** The rest of buildKnockoutFromSlots, once round 1 is filled. */
  method WireSlotRounds(first: seq<Match>, rounds: nat) returns (ms: seq<Match>)
    requires |first| >= 1 && IsPow2(|first|) && IsFirstRound(first)
    requires rounds == Lg(|first|) + 1
    ensures ms == Regrouped(Wired(first), 0)
  {
    ms := first;
    var prevStart, prevCount := 0, |first|;
    var r := 2;
    FirstRoundSeated(first);
    while r <= rounds
      invariant 2 <= r <= rounds + 1
      invariant prevCount == Pow2(rounds + 1 - r)
      invariant RoundsBuilt(first, ms, prevStart, prevCount)
    {
      ms, prevStart, prevCount := WireRound(first, ms, prevStart, prevCount, r, rounds - r);
      r := r + 1;
    }
    ms := ms[|ms| - 1 := ms[|ms| - 1].(next := -1)];
  }

  // GenerateFromPairs: round 1 is the organizer's pairs, padded with all-bye matches.

  function PairSlot(id: Option<Team>): Slot {
    match id
    case None => ByeSlot
    case Some(t) => Entrant(t)
  }

  predicate EmptyPair(p: Pair) {
    p.a.None? && p.b.None?
  }

  function Cleaned(pairs: seq<Pair>): (r: seq<Pair>)
    ensures |r| <= |pairs|
    ensures (forall i :: 0 <= i < |pairs| ==> !EmptyPair(pairs[i])) ==> r == pairs
  {
    if pairs == [] then []
    else
      var rest := Cleaned(pairs[..|pairs| - 1]);
      var p := pairs[|pairs| - 1];
      if EmptyPair(p) then rest else rest + [p]
  }

  function PairRound(pairs: seq<Pair>): seq<Match> {
    seq(PowerAtLeast(|pairs|), i requires 0 <= i =>
      if i < |pairs| then Fresh(1, i, PairSlot(pairs[i].a), PairSlot(pairs[i].b))
      else Fresh(1, i, ByeSlot, ByeSlot))
  }

  function FromPairs(pairs: seq<Pair>): seq<Match> {
    if Cleaned(pairs) == [] then [] else Wired(PairRound(Cleaned(pairs)))
  }

  method GenerateFromPairs(pairs: seq<Pair>) returns (ms: seq<Match>)
    ensures ms == FromPairs(pairs)
  {
    var cleaned := [];
    for i := 0 to |pairs|
      invariant cleaned == Cleaned(pairs[..i])
    {
      assert pairs[..i + 1][..i] == pairs[..i];
      if !EmptyPair(pairs[i]) {
        cleaned := cleaned + [pairs[i]];
      }
    }
    assert pairs[..|pairs|] == pairs;
    if |cleaned| == 0 {
      return [];
    }
    var f := NextPowerOfTwo(|cleaned|);
    var first := [];
    for i := 0 to f
      invariant first == PairRound(cleaned)[..i]
    {
      var p := if i < |cleaned| then cleaned[i] else Pair(None, None);
      first := first + [Fresh(1, i, PairSlot(p.a), PairSlot(p.b))];
    }
    assert first == PairRound(cleaned);
    ms := WireFedRounds(first);
  }

  // validatePairs (draw/service.go).

  datatype PairsResult = Pairs(pairs: seq<Pair>) | InvalidPairs | NotEnough

  function TeamsIn(pairs: seq<Pair>): seq<Team> {
    if pairs == [] then []
    else
      var p := pairs[|pairs| - 1];
      TeamsIn(pairs[..|pairs| - 1])
        + (if p.a.Some? then [p.a.value] else [])
        + (if p.b.Some? then [p.b.value] else [])
  }

  ghost predicate LegalPairs(pairs: seq<Pair>, valid: set<Team>) {
    && (forall i :: 0 <= i < |pairs| ==> (pairs[i].a.Some? <==> pairs[i].b.Some?))
    && AllowedTeams(TeamsIn(pairs), valid)
  }

  /** Teams of the event, each once. */
  ghost predicate AllowedTeams(teams: seq<Team>, valid: set<Team>) {
    (forall i :: 0 <= i < |teams| ==> teams[i] in valid) && NoRepeats(teams)
  }

  /** Accepted exactly when no pair is half filled, no team is used twice and
      every team belongs to the event; then the empty rows are dropped. */
  method ValidatePairs(input: seq<Pair>, valid: set<Team>) returns (r: PairsResult)
    ensures r.InvalidPairs? <==> !LegalPairs(input, valid)
    ensures r.NotEnough? <==> LegalPairs(input, valid) && Cleaned(input) == []
    ensures r.Pairs? ==> r.pairs == Cleaned(input)
  {
    var seen: set<Team> := {};
    var out := [];
    for i := 0 to |input|
      invariant LegalPairs(input[..i], valid)
      invariant SameTeams(seen, TeamsIn(input[..i]))
      invariant out == Cleaned(input[..i])
    {
      var p := input[i];
      NextPair(input, i);
      if p.a.Some? != p.b.Some? {
        assert input[i] == p;
        return InvalidPairs;
      }
      if p.a.Some? {
        var a, b := p.a.value, p.b.value;
        if a !in valid || a in seen || b !in valid || b in seen + {a} {
          IllegalNext(input, i, valid);
          return InvalidPairs;
        }
        LegalNext(input, i, valid);
        SameTeamsMore(seen, TeamsIn(input[..i]), a, b);
        seen := seen + {a} + {b};
        out := out + [p];
      }
    }
    assert input[..|input|] == input;
    r := if |out| == 0 then NotEnough else Pairs(out);
  }

  ghost predicate SameTeams(seen: set<Team>, teams: seq<Team>) {
    forall t :: t in seen <==> t in teams
  }

  lemma SameTeamsMore(seen: set<Team>, teams: seq<Team>, a: Team, b: Team)
    requires SameTeams(seen, teams)
    ensures SameTeams(seen + {a} + {b}, teams + [a] + [b])
  {
  }

  /** Two new teams of the event. */
  predicate NewPair(before: seq<Team>, p: Pair, valid: set<Team>) {
    && p.a.Some? && p.b.Some? && p.a.value in valid && p.b.value in valid
    && p.a.value !in before && p.b.value !in before && p.a != p.b
  }

  /** One pair more, full or empty. */
  lemma NextPair(input: seq<Pair>, i: nat)
    requires i < |input|
    ensures var p, before := input[i], TeamsIn(input[..i]);
            && Cleaned(input[..i + 1]) == Cleaned(input[..i]) + (if EmptyPair(p) then [] else [p])
            && (p.a.Some? && p.b.Some? ==> TeamsIn(input[..i + 1]) == before + [p.a.value] + [p.b.value])
            && (EmptyPair(p) ==> TeamsIn(input[..i + 1]) == before)
  {
    assert input[..i + 1][..i] == input[..i];
  }

  lemma LegalNext(input: seq<Pair>, i: nat, valid: set<Team>)
    requires i < |input| && LegalPairs(input[..i], valid) && NewPair(TeamsIn(input[..i]), input[i], valid)
    ensures LegalPairs(input[..i + 1], valid)
  {
    NextPair(input, i);
    TwoTeamsMore(TeamsIn(input[..i]), input[i], TeamsIn(input[..i + 1]), valid);
    assert forall k :: 0 <= k < i ==> input[..i + 1][k] == input[..i][k];
  }

  lemma TwoTeamsMore(before: seq<Team>, p: Pair, after: seq<Team>, valid: set<Team>)
    requires AllowedTeams(before, valid) && NewPair(before, p, valid) && after == before + [p.a.value] + [p.b.value]
    ensures AllowedTeams(after, valid)
  {
    OneTeamMore(before, p.a.value, valid);
    OneTeamMore(before + [p.a.value], p.b.value, valid);
  }

  lemma OneTeamMore(teams: seq<Team>, t: Team, valid: set<Team>)
    requires AllowedTeams(teams, valid) && t in valid && t !in teams
    ensures AllowedTeams(teams + [t], valid)
  {
  }

  lemma IllegalNext(input: seq<Pair>, i: nat, valid: set<Team>)
    requires i < |input| && input[i].a.Some? && input[i].b.Some? && !NewPair(TeamsIn(input[..i]), input[i], valid)
    ensures !LegalPairs(input, valid)
  {
    NextPair(input, i);
    IllegalTeams(TeamsIn(input[..i]), input[i], TeamsIn(input[..i + 1]), valid);
    IllegalPrefix(input, i + 1, valid);
  }

  lemma IllegalTeams(before: seq<Team>, p: Pair, after: seq<Team>, valid: set<Team>)
    requires p.a.Some? && p.b.Some? && !NewPair(before, p, valid) && after == before + [p.a.value] + [p.b.value]
    ensures !AllowedTeams(after, valid)
  {
    var a, b := p.a.value, p.b.value;
    if a !in valid || a in before {
      IllegalTeam(before, a, after, valid);
    } else {
      IllegalTeam(before + [a], b, after, valid);
    }
  }

  lemma IllegalTeam(before: seq<Team>, t: Team, all: seq<Team>, valid: set<Team>)
    requires before + [t] <= all
    requires t !in valid || t in before
    ensures !AllowedTeams(all, valid)
  {
    assert all[|before|] == t;
    if t in before {
      var j :| 0 <= j < |before| && before[j] == t;
      assert all[j] == (before + [t])[j];
    }
  }

  lemma IllegalPrefix(pairs: seq<Pair>, n: nat, valid: set<Team>)
    requires n <= |pairs| && !LegalPairs(pairs[..n], valid)
    ensures !LegalPairs(pairs, valid)
  {
    TeamsInPrefix(pairs, n);
    assert forall i :: 0 <= i < n ==> pairs[..n][i] == pairs[i];
  }

  lemma {:induction false} TeamsInPrefix(pairs: seq<Pair>, n: nat)
    requires n <= |pairs|
    ensures TeamsIn(pairs[..n]) <= TeamsIn(pairs)
  {
    if n < |pairs| {
      assert pairs[..|pairs| - 1][..n] == pairs[..n];
      TeamsInPrefix(pairs[..|pairs| - 1], n);
    } else {
      assert pairs[..n] == pairs;
    }
  }

  // The wiring is a perfect binary tree.

  /** Every match but the last feeds one slot of a later match, one round up. */
  ghost predicate EdgesForward(ms: seq<Match>, f: nat) {
    && (forall i :: 0 <= i < |ms| ==> (ms[i].next == -1 <==> i == |ms| - 1))
    && (forall i :: 0 <= i < |ms| - 1 ==>
          && i < ms[i].next < |ms|
          && f <= ms[i].next
          && ms[i].nextSlot in {1, 2}
          && ms[ms[i].next].round == ms[i].round + 1)
  }

  /** Match i is the one and only feeder of the slot. */
  ghost predicate OnlyFeeder(ms: seq<Match>, m: int, side: int, i: int) {
    forall j :: 0 <= j < |ms| ==> ((ms[j].next == m && ms[j].nextSlot == side) <==> j == i)
  }

  ghost predicate PerfectTree(ms: seq<Match>, f: nat) {
    && |ms| == 2 * f - 1
    && EdgesForward(ms, f)
    && (forall m, side :: f <= m < |ms| && 1 <= side <= 2 ==>
          && SideOf(ms[m], side) == Feed
          && 0 <= FeederOf(f, m, side) < m
          && OnlyFeeder(ms, m, side, FeederOf(f, m, side)))
  }

  function FeederOf(f: nat, m: int, side: int): int {
    2 * (m - f) + side - 1
  }

  /** Round r holds f / 2^(r-1) matches, contiguous and numbered from 0. */
  ghost predicate RoundsContiguous(ms: seq<Match>, f: nat) {
    forall h: nat, i: nat :: h <= Lg(f) && i < |ms| ==>
      ((ms[i].round == 1 + Lg(f) - h <==> 2 * f - 2 * Pow2(h) <= i < 2 * f - Pow2(h))
       && (ms[i].round == 1 + Lg(f) - h ==> ms[i].inRound == i - (2 * f - 2 * Pow2(h))))
  }

  lemma WiredEdge(first: seq<Match>, i: nat)
    requires i < 2 * |first| - 2
    ensures var m := WiredMatch(first, i);
            && i < m.next < 2 * |first| - 1 && |first| <= m.next
            && m.nextSlot in {1, 2}
            && i == FeederOf(|first|, m.next, m.nextSlot)
            && WiredMatch(first, m.next).round == m.round + 1
  {
    var f := |first|;
    assert HeapNumber(f, f + i / 2) == HeapNumber(f, i) / 2;
  }

  lemma WiredFeeder(first: seq<Match>, m: nat, side: int)
    requires |first| <= m < 2 * |first| - 1 && side in {1, 2}
    ensures var i := FeederOf(|first|, m, side);
            && 0 <= i < m
            && WiredMatch(first, i).next == m && WiredMatch(first, i).nextSlot == side
  {
  }

  lemma WiredEdges(first: seq<Match>, ms: seq<Match>, group: int)
    requires |first| >= 1 && ms == Regrouped(Wired(first), group)
    ensures EdgesForward(ms, |first|)
  {
    forall i: nat | i < |ms| - 1
      ensures i < ms[i].next < |ms| && |first| <= ms[i].next && ms[i].nextSlot in {1, 2}
      ensures ms[ms[i].next].round == ms[i].round + 1
    {
      WiredEdge(first, i);
    }
  }

  lemma WiredFedOnce(first: seq<Match>, ms: seq<Match>, group: int, m: nat, side: int)
    requires |first| <= m < 2 * |first| - 1 && side in {1, 2}
    requires ms == Regrouped(Wired(first), group)
    ensures SideOf(ms[m], side) == Feed
    ensures OnlyFeeder(ms, m, side, FeederOf(|first|, m, side))
  {
    forall j: nat | j < |ms|
      ensures (ms[j].next == m && ms[j].nextSlot == side) <==> j == FeederOf(|first|, m, side)
    {
      WiredFeeder(first, m, side);
      if j < |ms| - 1 { WiredEdge(first, j); }
    }
  }

  lemma WiredIsPerfectTree(first: seq<Match>, group: int)
    requires |first| >= 1
    ensures PerfectTree(Regrouped(Wired(first), group), |first|)
  {
    var f := |first|;
    var ms := Regrouped(Wired(first), group);
    WiredEdges(first, ms, group);
    forall m: nat, side | f <= m < |ms| && 1 <= side <= 2
      ensures SideOf(ms[m], side) == Feed && 0 <= FeederOf(f, m, side) < m
      ensures OnlyFeeder(ms, m, side, FeederOf(f, m, side))
    {
      WiredFeeder(first, m, side);
      WiredFedOnce(first, ms, group, m, side);
    }
  }

  lemma WiredRounds(first: seq<Match>, group: int)
    requires |first| >= 1 && IsPow2(|first|)
    ensures RoundsContiguous(Regrouped(Wired(first), group), |first|)
  {
    var f := |first|;
    var ms := Regrouped(Wired(first), group);
    forall h: nat, i: nat | h <= Lg(f) && i < |ms|
      ensures ms[i].round == 1 + Lg(f) - h <==> 2 * f - 2 * Pow2(h) <= i < 2 * f - Pow2(h)
      ensures ms[i].round == 1 + Lg(f) - h ==> ms[i].inRound == i - (2 * f - 2 * Pow2(h))
    {
      var u := HeapNumber(f, i);
      LgBounds(u);
      if Pow2(h) <= u < 2 * Pow2(h) {
        LgBetween(h, u);
      }
    }
  }

  /** Both builders wire the same perfect tree of 2f - 1 matches. */
  lemma BothBuildersWireAlike(pairs: seq<Pair>, slots: seq<Slot>)
    requires Cleaned(pairs) != [] && |slots| >= 2
    ensures var f := PowerAtLeast(|Cleaned(pairs)|);
            PerfectTree(FromPairs(pairs), f) && RoundsContiguous(FromPairs(pairs), f)
    ensures var f := PowerAtLeast(|slots|) / 2;
            var ms := Regrouped(Wired(SlotRound(Padded(slots))), 0);
            PerfectTree(ms, f) && RoundsContiguous(ms, f)
    ensures PowerAtLeast(|slots|) == 2 * PowerAtLeast(|Cleaned(pairs)|) ==>
              SameWiring(FromPairs(pairs), Regrouped(Wired(SlotRound(Padded(slots))), 0))
  {
    PairsWireTree(pairs);
    SlotsWireTree(slots);
    PaddedSize(slots);
    if PowerAtLeast(|slots|) == 2 * PowerAtLeast(|Cleaned(pairs)|) {
      WiredAlike(PairRound(Cleaned(pairs)), SlotRound(Padded(slots)), 0);
    }
  }

  /** Same rounds, same positions, same edges; only the entries may differ. */
  predicate SameWiring(a: seq<Match>, b: seq<Match>) {
    |a| == |b| && forall i :: 0 <= i < |a| ==>
      && a[i].round == b[i].round && a[i].inRound == b[i].inRound
      && a[i].next == b[i].next && a[i].nextSlot == b[i].nextSlot
  }

  lemma WiredAlike(a: seq<Match>, b: seq<Match>, group: int)
    requires |a| == |b| >= 1
    ensures SameWiring(Wired(a), Regrouped(Wired(b), group))
  {
  }

  lemma PairsWireTree(pairs: seq<Pair>)
    requires Cleaned(pairs) != []
    ensures var f := PowerAtLeast(|Cleaned(pairs)|);
            PerfectTree(FromPairs(pairs), f) && RoundsContiguous(FromPairs(pairs), f)
  {
    var first := PairRound(Cleaned(pairs));
    assert Regrouped(Wired(first), -1) == Wired(first);
    WiredIsPerfectTree(first, -1);
    WiredRounds(first, -1);
  }

  lemma SlotsWireTree(slots: seq<Slot>)
    requires |slots| >= 2
    ensures var f := PowerAtLeast(|slots|) / 2;
            var ms := Regrouped(Wired(SlotRound(Padded(slots))), 0);
            PerfectTree(ms, f) && RoundsContiguous(ms, f)
  {
    PaddedSize(slots);
    WiredIsPerfectTree(SlotRound(Padded(slots)), 0);
    WiredRounds(SlotRound(Padded(slots)), 0);
  }

  lemma PaddedSize(slots: seq<Slot>)
    requires |slots| >= 2
    ensures var f := PowerAtLeast(|slots|) / 2;
            f >= 1 && IsPow2(f) && |SlotRound(Padded(slots))| == f
            && Lg(PowerAtLeast(|slots|)) == Lg(f) + 1
  {
    var size := PowerAtLeast(|slots|);
    assert size == 2 * Pow2(Lg(size) - 1);
    Pow2IsPow2(Lg(size) - 1);
  }
}
