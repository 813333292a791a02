/** The circle-method round robin (round_robin.go): a ring of indices rotated in place, one
    round a turn, and the closed form of its schedule, from which it follows that every two
    entries meet exactly once. */
module RoundRobin {
  import opened Bracket

  /** A fixture between two entries, by index into the entry list. */
  datatype Pairing = Pairing(round: int, inRound: int, a: int, b: int)

  /** Entries plus the bye that makes the ring even. */
  function RingSize(n: int): int {
    if n % 2 == 1 then n + 1 else n
  }

  /** Ring label at position j after r rotations: 0 stays, the rest turn. */
  function Label(n: int, r: int, j: int): int {
    if j == 0 then 0
    else if j > r then j - r
    else j - r + RingSize(n) - 1
  }

  function Home(n: int, r: int, i: int): int {
    Label(n, r, i)
  }

  function Away(n: int, r: int, i: int): int {
    Label(n, r, RingSize(n) - 1 - i)
  }

  /** Position i of round r is a real fixture: neither side is the bye label n. */
  predicate Plays(n: int, r: int, i: int) {
    Home(n, r, i) != n && Away(n, r, i) != n
  }

  function RoundPairs(n: int, r: int, i: nat): (ps: seq<Pairing>)
    ensures |ps| <= i
  {
    if i == 0 then []
    else
      var ps := RoundPairs(n, r, i - 1);
      if Plays(n, r, i - 1) then ps + [Pairing(r + 1, |ps|, Home(n, r, i - 1), Away(n, r, i - 1))] else ps
  }

  function Rounds(n: int, r: nat): seq<Pairing>
    requires n >= 0
  {
    if r == 0 then [] else Rounds(n, r - 1) + RoundPairs(n, r - 1, RingSize(n) / 2)
  }

  function Schedule(n: int): seq<Pairing> {
    if n < 2 then [] else Rounds(n, RingSize(n) - 1)
  }

  function Fixture(teams: seq<Team>, p: Pairing): Match
    requires 0 <= p.a < |teams| && 0 <= p.b < |teams|
  {
    Match(p.round, p.inRound, Entrant(teams[p.a]), Entrant(teams[p.b]), -1, 0, -1)
  }

  function Fixtures(teams: seq<Team>, ps: seq<Pairing>): seq<Match>
    requires forall k :: 0 <= k < |ps| ==> 0 <= ps[k].a < |teams| && 0 <= ps[k].b < |teams|
  {
    seq(|ps|, k requires 0 <= k < |ps| => Fixture(teams, ps[k]))
  }

  /** The standalone draw over the given teams. */
  function Draw(teams: seq<Team>): seq<Match> {
    ScheduleInRange(|teams|);
    Fixtures(teams, Schedule(|teams|))
  }

  /** The ring as an index slice: the bye is -1. */
  ghost predicate Turned(idx: seq<int>, n: int, r: int) {
    && |idx| == RingSize(n)
    && forall j :: 0 <= j < |idx| ==> idx[j] == if Label(n, r, j) == n then -1 else Label(n, r, j)
  }

  method GenerateRoundRobin(teams: seq<Team>) returns (ms: seq<Match>)
    ensures ms == Draw(teams)
  {
    if |teams| < 2 {
      return [];
    }
    ghost var ps;
    ms, ps := PlayRounds(teams);
    RecordedIsDraw(teams, ms, ps);
    ms := StampGroup(ms, -1);
  }

  /** One round after the other, turning the ring in between. */
  method PlayRounds(teams: seq<Team>) returns (ms: seq<Match>, ghost ps: seq<Pairing>)
    requires |teams| >= 2
    ensures ps == Schedule(|teams|) && AllRecorded(teams, ms, ps)
  {
    var n := |teams|;
    var idx := NewRing(n);
    ms, ps := [], [];
    for r := 0 to idx.Length - 1
      invariant Turned(idx[..], n, r)
      invariant ps == Rounds(n, r) && AllRecorded(teams, ms, ps)
    {
      ms, ps := PlayRound(teams, idx[..], r, ms, ps);
      Rotate(idx, n, r);
    }
  }

  lemma RecordedIsDraw(teams: seq<Team>, ms: seq<Match>, ps: seq<Pairing>)
    requires ps == Schedule(|teams|) && AllRecorded(teams, ms, ps)
    ensures Regrouped(ms, -1) == Draw(teams)
  {
    var all := Regrouped(ms, -1);
    forall k | 0 <= k < |ps|
      ensures all[k] == Fixture(teams, ps[k])
    {
      assert Recorded(teams, ms[k], ps[k]);
    }
    assert all == Fixtures(teams, ps);
  }

  /** The index slice, padded with the bye when odd. */
  method NewRing(n: int) returns (idx: array<int>)
    requires n >= 2
    ensures fresh(idx) && Turned(idx[..], n, 0)
  {
    idx := new int[RingSize(n)];
    for j := 0 to n
      invariant forall q :: 0 <= q < j ==> idx[q] == q
    {
      idx[j] := j;
    }
    if n % 2 == 1 {
      idx[n] := -1;
    }
  }

  method StampGroup(matches: seq<Match>, group: int) returns (ms: seq<Match>)
    ensures ms == Regrouped(matches, group)
  {
    ms := matches;
    for k := 0 to |ms|
      invariant |ms| == |matches|
      invariant forall q :: 0 <= q < |ms| ==> ms[q] == if q < k then matches[q].(group := group) else matches[q]
    {
      ms := ms[k := ms[k].(group := group)];
    }
  }

  /** The fixtures of one round: the slice is paired off from both ends. */
  method PlayRound(teams: seq<Team>, idx: seq<int>, r: int, matches: seq<Match>, ghost before: seq<Pairing>)
    returns (ms: seq<Match>, ghost ps: seq<Pairing>)
    requires |teams| >= 2 && 0 <= r < RingSize(|teams|) - 1
    requires Turned(idx, |teams|, r)
    requires AllRecorded(teams, matches, before)
    ensures ps == before + RoundPairs(|teams|, r, RingSize(|teams|) / 2)
    ensures AllRecorded(teams, ms, ps)
  {
    var n, size := |teams|, |idx|;
    ms, ps := matches, before;
    var matchInRound := 0;
    for i := 0 to size / 2
      invariant ps == before + RoundPairs(n, r, i)
      invariant matchInRound == |RoundPairs(n, r, i)|
      invariant AllRecorded(teams, ms, ps)
    {
      var a := idx[i];
      var b := idx[size - 1 - i];
      LabelRange(n, r, i);
      LabelRange(n, r, size - 1 - i);
      ghost var ms0, ps0 := ms, ps;
      if a != -1 && b != -1 {
        ms := ms + [Match(r + 1, matchInRound, Entrant(teams[a]), Entrant(teams[b]), -1, 0, 0)];
        ps := ps + [Pairing(r + 1, matchInRound, a, b)];
        matchInRound := matchInRound + 1;
        RecordedMore(teams, ms0, ps0, ms, ps);
      }
    }
  }

  lemma RecordedMore(teams: seq<Team>, ms: seq<Match>, ps: seq<Pairing>, ms': seq<Match>, ps': seq<Pairing>)
    requires AllRecorded(teams, ms, ps) && |ms'| == |ps'| == |ms| + 1
    requires ms' == ms + [ms'[|ms|]] && ps' == ps + [ps'[|ms|]] && Recorded(teams, ms'[|ms|], ps'[|ms|])
    ensures AllRecorded(teams, ms', ps')
  {
  }

  /** Keep idx[0], rotate the rest clockwise by one; the copy may overlap. */
  method Rotate(idx: array<int>, ghost n: int, ghost r: int)
    requires n >= 2 && 0 <= r < RingSize(n) - 1 && Turned(idx[..], n, r)
    modifies idx
    ensures Turned(idx[..], n, r + 1)
  {
    var size := idx.Length;
    ghost var before := idx[..];
    var last := idx[size - 1];
    forall j | 2 <= j < size {
      idx[j] := idx[j - 1];
    }
    idx[1] := last;
    forall j | 0 <= j < size
      ensures idx[j] == if Label(n, r + 1, j) == n then -1 else Label(n, r + 1, j)
    {
      assert idx[j] == before[if j == 0 then 0 else if j == 1 then size - 1 else j - 1];
      LabelTurns(n, r, j);
    }
  }

  ghost predicate AllRecorded(teams: seq<Team>, ms: seq<Match>, ps: seq<Pairing>) {
    |ms| == |ps| && forall k :: 0 <= k < |ps| ==> Recorded(teams, ms[k], ps[k])
  }

  ghost predicate Recorded(teams: seq<Team>, m: Match, p: Pairing) {
    && 0 <= p.a < |teams| && 0 <= p.b < |teams|
    && m == Fixture(teams, p).(group := 0)
  }

  lemma LabelTurns(n: int, r: int, j: int)
    requires n >= 2 && 0 <= r < RingSize(n) - 1 && 0 <= j < RingSize(n)
    ensures Label(n, r + 1, j) == Label(n, r, if j == 0 then 0 else if j == 1 then RingSize(n) - 1 else j - 1)
  {
  }

  lemma LabelRange(n: int, r: int, j: int)
    requires n >= 2 && 0 <= r <= RingSize(n) - 1 && 0 <= j < RingSize(n)
    ensures 0 <= Label(n, r, j) < RingSize(n)
    ensures Label(n, r, j) == 0 <==> j == 0
  {
  }

  // Who meets whom, and when.

  ghost predicate Meet(n: int, r: int, i: int, x: int, y: int) {
    || (Home(n, r, i) == x && Away(n, r, i) == y)
    || (Home(n, r, i) == y && Away(n, r, i) == x)
  }

  /** 2 is invertible modulo the odd number m = RingSize - 1, so exactly one round
      turns the labels x and y onto facing positions. */
  function MeetingRound(n: int, x: int, y: int): int {
    var m := RingSize(n) - 1;
    if x == 0 then m - y
    else
      var t := if x + y <= m then m - (x + y) else 2 * m - (x + y);
      if t % 2 == 0 then t / 2 else (t + m) / 2
  }

  function PositionOf(n: int, r: int, x: int): int {
    if x == 0 then 0 else if x + r <= RingSize(n) - 1 then x + r else x + r - (RingSize(n) - 1)
  }

  function MeetingPosition(n: int, x: int, y: int): int {
    var r := MeetingRound(n, x, y);
    if PositionOf(n, r, x) < PositionOf(n, r, y) then PositionOf(n, r, x) else PositionOf(n, r, y)
  }

  /** Turning by the meeting round brings the labels onto facing positions. */
  lemma MeetingSum(n: int, x: int, y: int)
    requires n >= 2 && 0 < x < y < RingSize(n)
    ensures var r, m := MeetingRound(n, x, y), RingSize(n) - 1;
            0 <= r < m && (2 * r + x + y == m || 2 * r + x + y == 2 * m || 2 * r + x + y == 3 * m)
  {
    var m := RingSize(n) - 1;
    assert m % 2 == 1;
  }

  lemma LabelsMeet(n: int, x: int, y: int)
    requires n >= 2 && 0 <= x < y < RingSize(n)
    ensures var r, i := MeetingRound(n, x, y), MeetingPosition(n, x, y);
            0 <= r < RingSize(n) - 1 && 0 <= i < RingSize(n) / 2 && Meet(n, r, i, x, y)
  {
    assert (RingSize(n) - 1) % 2 == 1;
    if x > 0 { MeetingSum(n, x, y); }
  }

  lemma LabelsMeetOnce(n: int, x: int, y: int, r: int, i: int)
    requires n >= 2 && 0 <= x < y < RingSize(n)
    requires 0 <= r < RingSize(n) - 1 && 0 <= i < RingSize(n) / 2
    requires Meet(n, r, i, x, y)
    ensures r == MeetingRound(n, x, y) && i == MeetingPosition(n, x, y)
  {
    var m := RingSize(n) - 1;
    assert m % 2 == 1;
  }

  // From rounds and positions to indices of the schedule.

  /** The round's list, position by position. */
  lemma {:induction false} PairAtPosition(n: int, r: int, i: nat, half: nat)
    requires i < half && Plays(n, r, i)
    ensures |RoundPairs(n, r, i)| < |RoundPairs(n, r, half)|
    ensures RoundPairs(n, r, half)[|RoundPairs(n, r, i)|]
         == Pairing(r + 1, |RoundPairs(n, r, i)|, Home(n, r, i), Away(n, r, i))
  {
    if i < half - 1 {
      PairAtPosition(n, r, i, half - 1);
    }
  }

  lemma {:induction false} PositionOfPair(n: int, r: int, q: nat, half: nat) returns (i: nat)
    requires q < |RoundPairs(n, r, half)|
    ensures i < half && Plays(n, r, i) && |RoundPairs(n, r, i)| == q
    ensures RoundPairs(n, r, half)[q] == Pairing(r + 1, q, Home(n, r, i), Away(n, r, i))
  {
    if q < |RoundPairs(n, r, half - 1)| {
      i := PositionOfPair(n, r, q, half - 1);
    } else {
      i := half - 1;
    }
  }

  lemma {:induction false} RoundsPrefix(n: int, r: nat, all: nat)
    requires n >= 0 && r <= all
    ensures Rounds(n, r) <= Rounds(n, all)
  {
    if r < all {
      RoundsPrefix(n, r, all - 1);
    }
  }

  /** Where fixture k of the schedule was made. */
  lemma {:induction false} RoundOfFixture(n: int, all: nat, k: nat) returns (r: nat, i: nat)
    requires n >= 0 && k < |Rounds(n, all)|
    ensures r < all && i < RingSize(n) / 2 && Plays(n, r, i)
    ensures k == |Rounds(n, r)| + |RoundPairs(n, r, i)|
    ensures Rounds(n, all)[k] == Pairing(r + 1, |RoundPairs(n, r, i)|, Home(n, r, i), Away(n, r, i))
  {
    var before := |Rounds(n, all - 1)|;
    if k < before {
      r, i := RoundOfFixture(n, all - 1, k);
    } else {
      r := all - 1;
      i := PositionOfPair(n, r, k - before, RingSize(n) / 2);
    }
  }

  ghost predicate IsPair(p: Pairing, x: int, y: int) {
    (p.a == x && p.b == y) || (p.a == y && p.b == x)
  }

  /** Exactly one fixture of the list pairs x with y, and it is number k. */
  ghost predicate MeetAt(ps: seq<Pairing>, x: int, y: int, k: int) {
    && 0 <= k < |ps| && IsPair(ps[k], x, y)
    && forall q :: 0 <= q < |ps| && IsPair(ps[q], x, y) ==> q == k
  }

  ghost predicate MeetOnce(ps: seq<Pairing>, x: int, y: int) {
    exists k :: MeetAt(ps, x, y, k)
  }

  /** Position i of round r stands in the schedule behind what was made before it. */
  lemma PlaceInSchedule(n: int, r: nat, i: nat) returns (k: nat)
    requires n >= 2 && r < RingSize(n) - 1 && i < RingSize(n) / 2 && Plays(n, r, i)
    ensures k == |Rounds(n, r)| + |RoundPairs(n, r, i)| < |Schedule(n)|
    ensures Schedule(n)[k].a == Home(n, r, i) && Schedule(n)[k].b == Away(n, r, i)
  {
    PairAtPosition(n, r, i, RingSize(n) / 2);
    k := |Rounds(n, r)| + |RoundPairs(n, r, i)|;
    InSchedule(n, r, |RoundPairs(n, r, i)|);
  }

  lemma InSchedule(n: int, r: nat, q: nat)
    requires n >= 2 && r < RingSize(n) - 1 && q < |RoundPairs(n, r, RingSize(n) / 2)|
    ensures |Rounds(n, r)| + q < |Schedule(n)|
    ensures Schedule(n)[|Rounds(n, r)| + q] == RoundPairs(n, r, RingSize(n) / 2)[q]
  {
    RoundAt(n, r, q);
    RoundsPrefix(n, r + 1, RingSize(n) - 1);
  }

  lemma RoundAt(n: int, r: nat, q: nat)
    requires n >= 2 && q < |RoundPairs(n, r, RingSize(n) / 2)|
    ensures |Rounds(n, r)| + q < |Rounds(n, r + 1)|
    ensures Rounds(n, r + 1)[|Rounds(n, r)| + q] == RoundPairs(n, r, RingSize(n) / 2)[q]
  {
  }

  /** The fixture at which x and y meet. */
  lemma MeetingFixture(n: int, x: int, y: int) returns (k: nat)
    requires 0 <= x < y < n
    ensures k < |Schedule(n)| && IsPair(Schedule(n)[k], x, y)
    ensures k == |Rounds(n, MeetingRound(n, x, y))| + |RoundPairs(n, MeetingRound(n, x, y), MeetingPosition(n, x, y))|
  {
    LabelsMeet(n, x, y);
    k := PlaceInSchedule(n, MeetingRound(n, x, y), MeetingPosition(n, x, y));
  }

  lemma MeetOnlyThere(n: int, x: int, y: int, q: nat)
    requires 0 <= x < y < n && q < |Schedule(n)| && IsPair(Schedule(n)[q], x, y)
    ensures q == |Rounds(n, MeetingRound(n, x, y))| + |RoundPairs(n, MeetingRound(n, x, y), MeetingPosition(n, x, y))|
  {
    var r, i := RoundOfFixture(n, RingSize(n) - 1, q);
    LabelsMeetOnce(n, x, y, r, i);
  }

  /** Every two entries meet exactly once. */
  lemma EveryPairMeetsOnce(n: int, x: int, y: int)
    requires 0 <= x < y < n
    ensures MeetOnce(Schedule(n), x, y)
  {
    var k := MeetingFixture(n, x, y);
    forall q: nat | q < |Schedule(n)| && IsPair(Schedule(n)[q], x, y)
      ensures q == k
    {
      MeetOnlyThere(n, x, y, q);
    }
    assert MeetAt(Schedule(n), x, y, k);
  }

  lemma FacingLabels(n: int, r: int, i: int)
    requires n >= 2 && 0 <= r < RingSize(n) - 1 && 0 <= i < RingSize(n) / 2
    ensures 0 <= Home(n, r, i) < RingSize(n) && 0 <= Away(n, r, i) < RingSize(n)
    ensures Home(n, r, i) != Away(n, r, i)
  {
  }

  lemma PositionsDisjoint(n: int, r: int, i: int, j: int)
    requires n >= 2 && 0 <= r < RingSize(n) - 1
    requires 0 <= i < RingSize(n) / 2 && 0 <= j < RingSize(n) / 2 && i != j
    ensures Home(n, r, i) != Home(n, r, j) && Home(n, r, i) != Away(n, r, j)
    ensures Away(n, r, i) != Home(n, r, j) && Away(n, r, i) != Away(n, r, j)
  {
  }

  /** A fixture pairs two different entries. */
  lemma FixturePairsTwo(n: int, k: int)
    requires 0 <= k < |Schedule(n)|
    ensures var p := Schedule(n)[k];
            0 <= p.a < n && 0 <= p.b < n && p.a != p.b && 1 <= p.round <= RingSize(n) - 1
  {
    var r, i := RoundOfFixture(n, RingSize(n) - 1, k);
    FacingLabels(n, r, i);
  }

  lemma ScheduleInRange(n: int)
    ensures forall k :: 0 <= k < |Schedule(n)| ==> 0 <= Schedule(n)[k].a < n && 0 <= Schedule(n)[k].b < n
  {
    forall k | 0 <= k < |Schedule(n)| {
      FixturePairsTwo(n, k);
    }
  }

  /** Where fixture k was made, and for whom. */
  lemma FixturePlace(n: int, k: int) returns (r: nat, i: nat)
    requires 0 <= k < |Schedule(n)|
    ensures n >= 2 && r < RingSize(n) - 1 && i < RingSize(n) / 2
    ensures k == |Rounds(n, r)| + |RoundPairs(n, r, i)| && Schedule(n)[k].round == r + 1
    ensures Schedule(n)[k].a == Home(n, r, i) && Schedule(n)[k].b == Away(n, r, i)
    ensures Plays(n, r, i) && Schedule(n)[k].inRound == |RoundPairs(n, r, i)|
  {
    r, i := RoundOfFixture(n, RingSize(n) - 1, k);
  }

  /** In one round no entry plays twice. */
  lemma OncePerRound(n: int, k: int, q: int)
    requires 0 <= k < |Schedule(n)| && 0 <= q < |Schedule(n)| && k != q
    requires Schedule(n)[k].round == Schedule(n)[q].round
    ensures {Schedule(n)[k].a, Schedule(n)[k].b} !! {Schedule(n)[q].a, Schedule(n)[q].b}
  {
    var r, i := FixturePlace(n, k);
    var r', j := FixturePlace(n, q);
    assert r == r' && i != j;
    PairsDisjoint(n, r, i, j);
  }

  lemma PairsDisjoint(n: int, r: int, i: int, j: int)
    requires n >= 2 && 0 <= r < RingSize(n) - 1
    requires 0 <= i < RingSize(n) / 2 && 0 <= j < RingSize(n) / 2 && i != j
    ensures {Home(n, r, i), Away(n, r, i)} !! {Home(n, r, j), Away(n, r, j)}
  {
    PositionsDisjoint(n, r, i, j);
  }

  /** The position paired with the bye in round r, when n is odd. */
  function ByePosition(n: int, r: int): int {
    if r == 0 then 0 else if r < n - r then r else n - r
  }

  lemma {:induction false} RoundLength(n: int, r: int, i: nat)
    requires n >= 2 && 0 <= r < RingSize(n) - 1 && i <= RingSize(n) / 2
    ensures |RoundPairs(n, r, i)| == if n % 2 == 1 && ByePosition(n, r) < i then i - 1 else i
  {
    if i > 0 {
      RoundLength(n, r, i - 1);
    }
  }

  lemma {:induction false} RoundsLength(n: int, r: nat)
    requires n >= 2 && r <= RingSize(n) - 1
    ensures |Rounds(n, r)| == r * (n / 2)
  {
    if r > 0 {
      RoundsLength(n, r - 1);
      RoundLength(n, r - 1, RingSize(n) / 2);
      OneMoreTime(r, n / 2);
    }
  }

  lemma OneMoreTime(r: int, h: int)
    ensures r * h == (r - 1) * h + h
  {
  }

  /** The schedule has n(n-1)/2 fixtures. */
  lemma FixtureCount(n: int)
    requires n >= 2
    ensures 2 * |Schedule(n)| == n * (n - 1)
  {
    RoundsLength(n, RingSize(n) - 1);
    if n % 2 == 1 { TwiceProduct(n, n / 2, n - 1); } else { TwiceProduct(n - 1, n / 2, n); }
  }

  lemma TwiceProduct(a: int, b: int, c: int)
    requires c == 2 * b
    ensures 2 * (a * b) == a * c == c * a
  {
  }

  // The schedule by hand

  /** Who is at position j of a ring of the given size in round r, counted from 0: the first
      entry stays, the others move on by one place a round, the last to the second. */
  function AtPosition(size: int, r: int, j: int): int
    requires size >= 2
  {
    if j == 0 then 0 else 1 + (j - 1 - r) % (size - 1)
  }

  lemma SmallRemainder(x: int, m: int)
    requires -m <= x < m
    ensures x % m == if x >= 0 then x else x + m
  {
    if x < 0 { assert x == -1 * m + (x + m); }
  }

  lemma LabelIs(n: int, r: int, j: int)
    requires n >= 2 && 0 <= r < RingSize(n) - 1 && 0 <= j < RingSize(n)
    ensures RingSize(n) == n + n % 2 && Label(n, r, j) == AtPosition(n + n % 2, r, j)
  {
    if j > 0 { SmallRemainder(j - 1 - r, RingSize(n) - 1); }
  }

  /** A multiple other than none is at least one step away from zero. */
  lemma MultipleAway(d: int, h: int)
    requires h >= 0
    ensures d >= 1 ==> d * h >= h
    ensures d <= -1 ==> d * h <= -h
  {
    assert d * h == (d - 1) * h + h;
    assert d * h == (d + 1) * h - h;
  }

  lemma Quotient(k: nat, r: nat, h: nat, q: nat)
    requires k == r * h + q && q < h
    ensures k / h == r && k % h == q
  {
    var d, e := k / h, k % h;
    assert k == d * h + e;
    assert (r - d) * h == e - q;
    MultipleAway(r - d, h);
  }

  /** Fixture k is number k mod n/2 of round k div n/2, counted from 0, and pairs the entries at
      two facing positions of the ring in that round, the nearer end first. */
  lemma FixtureIs(n: int, k: int) returns (i: nat)
    requires 0 <= k < |Schedule(n)|
    ensures n >= 2
    ensures var size, p := n + n % 2, Schedule(n)[k];
            && i < size / 2 && p.round == 1 + k / (n / 2) && p.inRound == k % (n / 2)
            && p.a == AtPosition(size, k / (n / 2), i) && p.b == AtPosition(size, k / (n / 2), size - 1 - i)
  {
    var r;
    r, i := FixturePlace(n, k);
    PlaceNumbers(n, k, r, i);
    LabelIs(n, r, i);
    LabelIs(n, r, RingSize(n) - 1 - i);
  }

  lemma PlaceNumbers(n: int, k: int, r: nat, i: nat)
    requires n >= 2 && r < RingSize(n) - 1 && i < RingSize(n) / 2 && Plays(n, r, i)
    requires k == |Rounds(n, r)| + |RoundPairs(n, r, i)|
    ensures k / (n / 2) == r && k % (n / 2) == |RoundPairs(n, r, i)|
  {
    PairAtPosition(n, r, i, RingSize(n) / 2);
    RoundLength(n, r, RingSize(n) / 2);
    RoundsLength(n, r);
    Quotient(k, r, n / 2, |RoundPairs(n, r, i)|);
  }
}
