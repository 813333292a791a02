/** What the columns of a group's standings add up to. Each counted match adds one line to each of
    its two players, so over all rows of a table wins, losses and games balance, whatever
    the results and whatever was corrected since. */
module GroupTotals {
  import opened Seqs
  import opened Wrappers
  import opened Scoring
  import opened Tables
  import opened Progression
  import opened Coherence

  /** Column sums of a table. */
  datatype Totals = Totals(played: int, won: int, lost: int, gamesFor: int, gamesAgainst: int)

  const ZERO := Totals(0, 0, 0, 0, 0)

  function Plus(a: Totals, b: Totals): Totals {
    Totals(a.played + b.played, a.won + b.won, a.lost + b.lost, a.gamesFor + b.gamesFor, a.gamesAgainst + b.gamesAgainst)
  }

  function Columns(s: Standing): Totals {
    Totals(s.played, s.won, s.lost, s.gamesFor, s.gamesAgainst)
  }

  function Total(rows: seq<Standing>): Totals {
    if rows == [] then ZERO else Plus(Total(rows[..|rows| - 1]), Columns(rows[|rows| - 1]))
  }

  /** The group's matches among the first n whose result counts. */
  function CountedMatches(db: DB, g: nat, n: nat): nat
    requires n <= |db.matches|
  {
    if n == 0 then 0
    else CountedMatches(db, g, n - 1) + (if CountedMatch(db, g, n - 1) then 1 else 0)
  }

  // Ranking moves rows but keeps the sums

  lemma {:induction false} RankAdds(s: Standing, table: seq<Standing>)
    ensures Total(Rank(s, table)) == Plus(Total(table), Columns(s))
  {
    var n := |table| - 1;
    if table != [] && Above(s, table[n]) {
      RankAdds(s, table[..n]);
      assert (Rank(s, table[..n]) + [table[n]])[..|Rank(s, table[..n])|] == Rank(s, table[..n]);
    } else {
      assert (table + [s])[..|table|] == table;
    }
  }

  lemma {:induction false} RankedKeepsTotal(rows: seq<Standing>)
    ensures Total(Ranked(rows)) == Total(rows)
  {
    if rows != [] {
      RankedKeepsTotal(rows[..|rows| - 1]);
      RankAdds(rows[|rows| - 1], Ranked(rows[..|rows| - 1]));
    }
  }

  // Sums over a list of teams

  function Sum<T>(ts: seq<T>, line: T -> Totals): Totals {
    if ts == [] then ZERO else Plus(Sum(ts[..|ts| - 1], line), line(ts[|ts| - 1]))
  }

  lemma {:induction false} SumPlus<T>(ts: seq<T>, f: T -> Totals, d: T -> Totals, h: T -> Totals)
    requires forall u :: h(u) == Plus(f(u), d(u))
    ensures Sum(ts, h) == Plus(Sum(ts, f), Sum(ts, d))
  {
    if ts != [] { SumPlus(ts[..|ts| - 1], f, d, h); }
  }

  lemma {:induction false} SumZero<T>(ts: seq<T>, d: T -> Totals)
    requires forall u :: u in ts ==> d(u) == ZERO
    ensures Sum(ts, d) == ZERO
  {
    if ts != [] { SumZero(ts[..|ts| - 1], d); }
  }

  lemma {:induction false} SumOne<T>(ts: seq<T>, d: T -> Totals, a: T)
    requires NoRepeats(ts) && a in ts && forall u :: u in ts && u != a ==> d(u) == ZERO
    ensures Sum(ts, d) == d(a)
  {
    var rest := ts[..|ts| - 1];
    if ts[|ts| - 1] == a { SumZero(rest, d); } else { SumOne(rest, d, a); }
  }

  lemma {:induction false} SumTwo<T>(ts: seq<T>, d: T -> Totals, a: T, b: T)
    requires NoRepeats(ts) && a in ts && b in ts && a != b
    requires forall u :: u in ts && u != a && u != b ==> d(u) == ZERO
    ensures Sum(ts, d) == Plus(d(a), d(b))
  {
    var rest, last := ts[..|ts| - 1], ts[|ts| - 1];
    if last == a {
      SumOne(rest, d, b);
    } else if last == b {
      SumOne(rest, d, a);
    } else {
      SumTwo(rest, d, a, b);
    }
  }

  // One match at a time

  /** Wins, losses and matches agree; games for and against agree. */
  predicate Balanced(t: Totals, matches: int) {
    t == Totals(2 * matches, matches, matches, t.gamesFor, t.gamesFor)
  }

  /** Team u's line after the first m matches. */
  function Lines(db: DB, g: nat, m: nat): Team -> Totals
    requires Laid(db) && m <= |db.matches|
  {
    (u: Team) => Columns(StandingOf(db, g, u, 2 * m))
  }

  predicate CountedMatch(db: DB, g: nat, m: nat)
    requires m < |db.matches|
  {
    InGroup(db, m, g) && Counts(db.matches[m].status)
  }

  /** One player's share of a counted match. */
  function Part(won: bool, own: int, other: int): Totals {
    Totals(1, if won then 1 else 0, if won then 0 else 1, own, other)
  }

  function SidePart(db: DB, m: nat, side: int): Totals
    requires Laid(db) && m < |db.matches| && 1 <= side <= 2
  {
    Part(db.matches[m].winner == TeamAt(db, m, side), GamesOf(db.scores[m], side), GamesOf(db.scores[m], 3 - side))
  }

  /** What match m adds to the line of team u. */
  function Share(db: DB, g: nat, m: nat): Team -> Totals
    requires Laid(db) && m < |db.matches|
  {
    (u: Team) => if !CountedMatch(db, g, m) then ZERO
         else if TeamAt(db, m, 1) == Some(u) then SidePart(db, m, 1)
         else if TeamAt(db, m, 2) == Some(u) then SidePart(db, m, 2)
         else ZERO
  }

  lemma OneLine(db: DB, g: nat, u: Team, k: nat)
    requires Laid(db) && k < |db.slots|
    requires var m := db.matches[db.slots[k].owner]; Counts(m.status) ==> m.winner.Some?
    ensures var row := db.slots[k];
            var part := Part(db.matches[row.owner].winner == row.team,
                             GamesOf(db.scores[row.owner], row.side), GamesOf(db.scores[row.owner], 3 - row.side));
            Columns(StandingOf(db, g, u, k + 1)) ==
            Plus(Columns(StandingOf(db, g, u, k)), if CountedRow(db, g, k) && row.team == Some(u) then part else ZERO)
  {
  }

  lemma RowAdds(db: DB, g: nat, m: nat, side: nat, u: Team)
    requires Coherent(db) && m < |db.matches| && 1 <= side <= 2
    ensures Columns(StandingOf(db, g, u, 2 * m + side)) ==
            Plus(Columns(StandingOf(db, g, u, 2 * m + side - 1)),
                 if CountedMatch(db, g, m) && TeamAt(db, m, side) == Some(u) then SidePart(db, m, side) else ZERO)
  {
    var k := 2 * m + side - 1;
    RowOfSide(db, m, side);
    OneLine(db, g, u, k);
    SamePart(db, g, m, side, u, k);
    assert k + 1 == 2 * m + side;
  }

  lemma SamePart(db: DB, g: nat, m: nat, side: nat, u: Team, k: nat)
    requires Laid(db) && m < |db.matches| && 1 <= side <= 2 && k == 2 * m + side - 1
    requires db.slots[k].owner == m && db.slots[k].side == side
    ensures CountedRow(db, g, k) && db.slots[k].team == Some(u) <==> CountedMatch(db, g, m) && TeamAt(db, m, side) == Some(u)
    ensures SidePart(db, m, side)
         == Part(db.matches[m].winner == db.slots[k].team, GamesOf(db.scores[m], side), GamesOf(db.scores[m], 3 - side))
  {
  }

  lemma RowOfSide(db: DB, m: nat, side: nat)
    requires Coherent(db) && m < |db.matches| && 1 <= side <= 2
    ensures var k := 2 * m + side - 1;
            && db.slots[k].owner == m && db.slots[k].side == side && TeamAt(db, m, side) == db.slots[k].team
            && (Counts(db.matches[m].status) ==> db.matches[m].winner.Some?)
  {
    var k := 2 * m + side - 1;
    assert k / 2 == m && k % 2 + 1 == side;
    assert MatchTruthful(db, m);
  }

  lemma PlusChain(a: Totals, b: Totals, c: Totals, x: Totals, y: Totals)
    requires b == Plus(a, x) && c == Plus(b, y) && (x == ZERO || y == ZERO)
    ensures c == Plus(a, if x == ZERO then y else x)
  {
  }

  lemma PlayersDiffer(db: DB, g: nat, m: nat)
    requires Coherent(db) && m < |db.matches| && CountedMatch(db, g, m)
    ensures TeamAt(db, m, 1).Some? && TeamAt(db, m, 2).Some? && TeamAt(db, m, 1) != TeamAt(db, m, 2)
    ensures (db.matches[m].winner == TeamAt(db, m, 1)) != (db.matches[m].winner == TeamAt(db, m, 2))
  {
    assert GroupMatchShape(db, m) && MatchTruthful(db, m);
    assert RowShape(db, db.slots[2 * m]) && RowShape(db, db.slots[2 * m + 1]);
  }

  lemma MatchAdds(db: DB, g: nat, m: nat, u: Team)
    requires Coherent(db) && m < |db.matches|
    ensures Lines(db, g, m + 1)(u) == Plus(Lines(db, g, m)(u), Share(db, g, m)(u))
  {
    assert 2 * m + 2 == 2 * (m + 1);
    RowAdds(db, g, m, 1, u);
    RowAdds(db, g, m, 2, u);
    if CountedMatch(db, g, m) { PlayersDiffer(db, g, m); }
    PlusChain(Columns(StandingOf(db, g, u, 2 * m)), Columns(StandingOf(db, g, u, 2 * m + 1)),
              Columns(StandingOf(db, g, u, 2 * m + 2)),
              if CountedMatch(db, g, m) && TeamAt(db, m, 1) == Some(u) then SidePart(db, m, 1) else ZERO,
              if CountedMatch(db, g, m) && TeamAt(db, m, 2) == Some(u) then SidePart(db, m, 2) else ZERO);
  }

  ghost predicate ListsGroup(db: DB, g: nat, ts: seq<Team>)
    requires Laid(db)
  {
    NoRepeats(ts) && forall t :: Belongs(db, g, t) ==> t in ts
  }

  /** A counted match is one win, one loss, and its games once on each side. */
  lemma MatchBalances(db: DB, g: nat, ts: seq<Team>, m: nat)
    requires Coherent(db) && ListsGroup(db, g, ts) && m < |db.matches|
    ensures Balanced(Sum(ts, Share(db, g, m)), if CountedMatch(db, g, m) then 1 else 0)
  {
    if CountedMatch(db, g, m) {
      PlayersDiffer(db, g, m);
      assert db.slots[2 * m].owner == m && db.slots[2 * m + 1].owner == m;
      SumTwo(ts, Share(db, g, m), TeamAt(db, m, 1).value, TeamAt(db, m, 2).value);
      PartsBalance(db.matches[m].winner == TeamAt(db, m, 1), GamesOf(db.scores[m], 1), GamesOf(db.scores[m], 2));
    } else {
      SumZero(ts, Share(db, g, m));
    }
  }

  lemma PartsBalance(won1: bool, x: int, y: int)
    ensures Balanced(Plus(Part(won1, x, y), Part(!won1, y, x)), 1)
  {
  }

  lemma BalancedStep<T>(ts: seq<T>, f: T -> Totals, d: T -> Totals, h: T -> Totals, x: int, y: int)
    requires forall u :: h(u) == Plus(f(u), d(u))
    requires Balanced(Sum(ts, f), x) && Balanced(Sum(ts, d), y)
    ensures Balanced(Sum(ts, h), x + y)
  {
    SumPlus(ts, f, d, h);
    BalancedAdds(Sum(ts, f), Sum(ts, d), x, y);
  }

  lemma BalancedAdds(a: Totals, b: Totals, x: int, y: int)
    requires Balanced(a, x) && Balanced(b, y)
    ensures Balanced(Plus(a, b), x + y)
  {
  }

  lemma LinesGrow(db: DB, g: nat, m: nat)
    requires Coherent(db) && m < |db.matches|
    ensures forall u: Team :: Lines(db, g, m + 1)(u) == Plus(Lines(db, g, m)(u), Share(db, g, m)(u))
  {
    forall u: Team
      ensures Lines(db, g, m + 1)(u) == Plus(Lines(db, g, m)(u), Share(db, g, m)(u))
    {
      MatchAdds(db, g, m, u);
    }
  }

  lemma NextMatchBalances(db: DB, g: nat, ts: seq<Team>, m: nat, counted: int)
    requires Coherent(db) && ListsGroup(db, g, ts) && m < |db.matches| && Balanced(Sum(ts, Lines(db, g, m)), counted)
    ensures Balanced(Sum(ts, Lines(db, g, m + 1)), counted + if CountedMatch(db, g, m) then 1 else 0)
  {
    MatchBalances(db, g, ts, m);
    LinesGrow(db, g, m);
    BalancedStep(ts, Lines(db, g, m), Share(db, g, m), Lines(db, g, m + 1),
                 counted, if CountedMatch(db, g, m) then 1 else 0);
  }

  lemma {:induction false} MatchesBalance(db: DB, g: nat, ts: seq<Team>, m: nat)
    requires Coherent(db) && ListsGroup(db, g, ts) && m <= |db.matches|
    ensures Balanced(Sum(ts, Lines(db, g, m)), CountedMatches(db, g, m))
  {
    if m == 0 {
      SumZero(ts, Lines(db, g, 0));
    } else {
      MatchesBalance(db, g, ts, m - 1);
      NextMatchBalances(db, g, ts, m - 1, CountedMatches(db, g, m - 1));
    }
  }

  lemma {:induction false} TotalIsSum<T>(rows: seq<Standing>, ts: seq<T>, line: T -> Totals)
    requires |rows| == |ts| && forall i :: 0 <= i < |ts| ==> Columns(rows[i]) == line(ts[i])
    ensures Total(rows) == Sum(ts, line)
  {
    if ts != [] { TotalIsSum(rows[..|rows| - 1], ts[..|ts| - 1], line); }
  }

  /** In every state reached by any requests, the standings of a group show exactly one
      win and one loss for each of its counted matches, and as many games won as lost. */
  lemma StandingsBalance(db: DB, qs: seq<Request>, g: nat)
    requires Coherent(db)
    ensures Coherent(Run(db, qs))
    ensures Balanced(Total(Standings(Run(db, qs), g)), CountedMatches(Run(db, qs), g, |Run(db, qs).matches|))
  {
    RunKeepsCoherence(db, qs);
    StateBalances(Run(db, qs), g);
  }

  lemma StateBalances(db: DB, g: nat)
    requires Coherent(db)
    ensures Balanced(Total(Standings(db, g)), CountedMatches(db, g, |db.matches|))
  {
    var ts := TeamsOf(db, g, |db.slots|);
    TeamsOfGroup(db, g, |db.slots|);
    MatchesBalance(db, g, ts, |db.matches|);
    TotalIsSum(RowsOf(db, g), ts, Lines(db, g, |db.matches|));
    RankedKeepsTotal(RowsOf(db, g));
  }

  lemma {:induction false} LineAddsUp(db: DB, g: nat, t: Team, n: nat)
    requires Coherent(db) && n <= |db.slots|
    ensures var s := StandingOf(db, g, t, n); s.played == s.won + s.lost
  {
    if n > 0 {
      LineAddsUp(db, g, t, n - 1);
      RowOfSide(db, (n - 1) / 2, (n - 1) % 2 + 1);
      OneLine(db, g, t, n - 1);
    }
  }

  /** Every line of every reachable table adds up: played is won plus lost. */
  lemma PlayedIsWonPlusLost(db: DB, qs: seq<Request>, g: nat, i: nat)
    requires Coherent(db)
    ensures Coherent(Run(db, qs))
    ensures i < |Standings(Run(db, qs), g)| ==>
              var s := Standings(Run(db, qs), g)[i]; s.played == s.won + s.lost
  {
    RunKeepsCoherence(db, qs);
    LinesAddUp(Run(db, qs), g, i);
  }

  lemma LinesAddUp(db: DB, g: nat, i: nat)
    requires Coherent(db)
    ensures i < |Standings(db, g)| ==> var s := Standings(db, g)[i]; s.played == s.won + s.lost
  {
    var ts := TeamsOf(db, g, |db.slots|);
    if i < |Standings(db, g)| {
      RankedIsFrom(RowsOf(db, g), Standings(db, g)[i]);
      var j :| 0 <= j < |ts| && RowsOf(db, g)[j] == Standings(db, g)[i];
      LineAddsUp(db, g, ts[j], |db.slots|);
    }
  }

  lemma {:induction false} RankFrom(s: Standing, table: seq<Standing>, x: Standing)
    requires x in Rank(s, table)
    ensures x == s || x in table
  {
    if table != [] && Above(s, table[|table| - 1]) && x != table[|table| - 1] {
      RankFrom(s, table[..|table| - 1], x);
    }
  }

  lemma {:induction false} RankedIsFrom(rows: seq<Standing>, x: Standing)
    requires x in Ranked(rows)
    ensures x in rows
  {
    if rows != [] {
      RankFrom(rows[|rows| - 1], Ranked(rows[..|rows| - 1]), x);
      if x in Ranked(rows[..|rows| - 1]) { RankedIsFrom(rows[..|rows| - 1], x); }
    }
  }

  // What the columns count

  /** Games of the two sides over the sets of a score. */
  function FirstGames(sets: seq<SetScore>): int {
    if sets == [] then 0 else sets[0].games1 + FirstGames(sets[1..])
  }

  function SecondGames(sets: seq<SetScore>): int {
    if sets == [] then 0 else sets[0].games2 + SecondGames(sets[1..])
  }

  lemma {:induction false} GamesAre(sets: seq<SetScore>)
    ensures GamesOf(sets, 1) == FirstGames(sets) && GamesOf(sets, 2) == SecondGames(sets)
  {
    if |sets| == 1 {
      assert sets[..0] == [] && sets[1..] == [];
    } else if sets != [] {
      var n := |sets| - 1;
      GamesAre(sets[1..]);
      GamesAre(sets[..n]);
      GamesAre(sets[1..n]);
      assert sets[1..][..n - 1] == sets[1..n] && sets[..n][1..] == sets[1..n];
    }
  }

  /** Matches of the group with a result that counts. */
  predicate ResultCounts(db: DB, g: nat, m: nat)
    requires m < |db.matches|
  {
    && db.matches[m].group == Some(g)
    && (db.matches[m].status == Completed || db.matches[m].status == WalkedOver || db.matches[m].status == RetiredFrom)
  }

  predicate CountsFor(db: DB, g: nat, t: Team, m: nat)
    requires Laid(db) && m < |db.matches|
  {
    ResultCounts(db, g, m) && (TeamAt(db, m, 1) == Some(t) || TeamAt(db, m, 2) == Some(t))
  }

  predicate WonWith(db: DB, g: nat, t: Team, m: nat)
    requires Laid(db) && m < |db.matches|
  {
    ResultCounts(db, g, m) && db.matches[m].winner == Some(t)
  }

  /** How many of the first n matches. */
  ghost function PlayedBy(db: DB, g: nat, t: Team, n: nat): nat
    requires Laid(db) && n <= |db.matches|
  {
    if n == 0 then 0 else PlayedBy(db, g, t, n - 1) + if CountsFor(db, g, t, n - 1) then 1 else 0
  }

  ghost function WonBy(db: DB, g: nat, t: Team, n: nat): nat
    requires Laid(db) && n <= |db.matches|
  {
    if n == 0 then 0 else WonBy(db, g, t, n - 1) + if WonWith(db, g, t, n - 1) then 1 else 0
  }

  /** Games won by the team over the first n matches: of side 1 where it stands there, of
      side 2 where it stands there. */
  ghost function GamesFor(db: DB, g: nat, t: Team, n: nat): int
    requires Laid(db) && n <= |db.matches|
  {
    if n == 0 then 0
    else
      var sets := db.scores[n - 1];
      GamesFor(db, g, t, n - 1) +
        if !ResultCounts(db, g, n - 1) then 0
        else if TeamAt(db, n - 1, 1) == Some(t) then FirstGames(sets)
        else if TeamAt(db, n - 1, 2) == Some(t) then SecondGames(sets) else 0
  }

  ghost function GamesAgainst(db: DB, g: nat, t: Team, n: nat): int
    requires Laid(db) && n <= |db.matches|
  {
    if n == 0 then 0
    else
      var sets := db.scores[n - 1];
      GamesAgainst(db, g, t, n - 1) +
        if !ResultCounts(db, g, n - 1) then 0
        else if TeamAt(db, n - 1, 1) == Some(t) then SecondGames(sets)
        else if TeamAt(db, n - 1, 2) == Some(t) then FirstGames(sets) else 0
  }

  ghost predicate ColumnsTrue(db: DB, g: nat, t: Team, n: nat, c: Totals)
    requires Laid(db) && n <= |db.matches|
  {
    && c.played == PlayedBy(db, g, t, n) && c.won == WonBy(db, g, t, n) && c.lost == c.played - c.won
    && c.gamesFor == GamesFor(db, g, t, n) && c.gamesAgainst == GamesAgainst(db, g, t, n)
  }

  /** What one match adds to a team's line. */
  lemma ShareIs(db: DB, g: nat, t: Team, m: nat)
    requires Coherent(db) && m < |db.matches|
    ensures var d, sets := Share(db, g, m)(t), db.scores[m];
            var first, second := TeamAt(db, m, 1) == Some(t), TeamAt(db, m, 2) == Some(t);
            && d.played == (if CountsFor(db, g, t, m) then 1 else 0)
            && d.won == (if WonWith(db, g, t, m) then 1 else 0) && d.lost == d.played - d.won
            && d.gamesFor == (if !ResultCounts(db, g, m) then 0
                              else if first then FirstGames(sets) else if second then SecondGames(sets) else 0)
            && d.gamesAgainst == (if !ResultCounts(db, g, m) then 0
                                  else if first then SecondGames(sets) else if second then FirstGames(sets) else 0)
  {
    GamesAre(db.scores[m]);
    assert MatchTruthful(db, m);
    if CountedMatch(db, g, m) { PlayersDiffer(db, g, m); }
  }

  lemma {:induction false} LinesTrue(db: DB, g: nat, t: Team, m: nat)
    requires Coherent(db) && m <= |db.matches|
    ensures ColumnsTrue(db, g, t, m, Lines(db, g, m)(t))
  {
    if m > 0 {
      LinesTrue(db, g, t, m - 1);
      NextLine(db, g, t, m - 1, Lines(db, g, m - 1)(t));
      MatchAdds(db, g, m - 1, t);
    }
  }

  lemma NextLine(db: DB, g: nat, t: Team, m: nat, c: Totals)
    requires Coherent(db) && m < |db.matches| && ColumnsTrue(db, g, t, m, c)
    ensures ColumnsTrue(db, g, t, m + 1, Plus(c, Share(db, g, m)(t)))
  {
    ShareIs(db, g, t, m);
    ColumnsGrow(db, g, t, m, c, Share(db, g, m)(t));
  }

  lemma ColumnsGrow(db: DB, g: nat, t: Team, m: nat, c: Totals, d: Totals)
    requires Laid(db) && m < |db.matches| && ColumnsTrue(db, g, t, m, c)
    requires d.played == (if CountsFor(db, g, t, m) then 1 else 0)
    requires d.won == (if WonWith(db, g, t, m) then 1 else 0) && d.lost == d.played - d.won
    requires c.gamesFor + d.gamesFor == GamesFor(db, g, t, m + 1)
    requires c.gamesAgainst + d.gamesAgainst == GamesAgainst(db, g, t, m + 1)
    ensures ColumnsTrue(db, g, t, m + 1, Plus(c, d))
  {
  }

  /** Every line of the standings counts its team's own matches of the group: those with a
      counted result it played and those it won, and the games of its side and of the other. */
  lemma StandingsCount(db: DB, g: nat, i: nat)
    requires Coherent(db) && i < |Standings(db, g)|
    ensures var s, n := Standings(db, g)[i], |db.matches|;
            && s.played == PlayedBy(db, g, s.team, n) && s.won == WonBy(db, g, s.team, n) && s.lost == s.played - s.won
            && s.gamesFor == GamesFor(db, g, s.team, n) && s.gamesAgainst == GamesAgainst(db, g, s.team, n)
  {
    var ts := TeamsOf(db, g, |db.slots|);
    RankedIsFrom(RowsOf(db, g), Standings(db, g)[i]);
    var j :| 0 <= j < |ts| && RowsOf(db, g)[j] == Standings(db, g)[i];
    LinesTrue(db, g, ts[j], |db.matches|);
  }
}
