/** The tables of one event and its group standings. */
module Tables {
  import opened Seqs
  import opened Wrappers
  import opened Scoring
  import Bracket

  // Tables matches, match_participants and match_scores; standingsForGroup of
  // draw/service.go.

  type Team = Bracket.Team

  /** Where a slot's participant comes from (column source_type and its references). */
  datatype Source =
    | Fixed
    | ByeSource
    | Empty
    | GroupPlacement(group: nat, rank: nat)
    | MatchWinner(feeder: nat)

  datatype SlotRow = SlotRow(owner: nat, side: int, team: Option<Team>, source: Source)

  datatype MatchRow = MatchRow(status: Status, winner: Option<Team>, group: Option<nat>,
                               next: Option<nat>, nextSlot: int)

  /** Row ids are indices; match_no is the index plus one. names is the collation
      rank of the participants' display names. */
  datatype DB = DB(matches: seq<MatchRow>, slots: seq<SlotRow>, scores: seq<seq<SetScore>>, names: map<Team, int>)

  /** Two slot rows a match, in order, as persistWithGroups inserts them. */
  predicate Laid(db: DB) {
    && |db.slots| == 2 * |db.matches|
    && |db.scores| == |db.matches|
    && forall k :: 0 <= k < |db.slots| ==> db.slots[k].owner == k / 2 && db.slots[k].side == k % 2 + 1
  }

  function TeamAt(db: DB, m: nat, side: int): Option<Team>
    requires Laid(db) && m < |db.matches| && 1 <= side <= 2
  {
    db.slots[2 * m + side - 1].team
  }

  predicate InGroup(db: DB, m: nat, g: nat)
    requires m < |db.matches|
  {
    db.matches[m].group == Some(g)
  }

  /** Every match of the group is over. */
  predicate GroupComplete(db: DB, g: nat) {
    forall m :: 0 <= m < |db.matches| && InGroup(db, m, g) ==> Decided(db.matches[m].status)
  }

  // Standings

  datatype Standing = Standing(team: Team, name: int, played: int, won: int, lost: int, gamesFor: int, gamesAgainst: int)

  function GamesOf(sets: seq<SetScore>, side: int): int {
    if sets == [] then 0
    else
      var st := sets[|sets| - 1];
      GamesOf(sets[..|sets| - 1], side) + (if side == 1 then st.games1 else st.games2)
  }

  predicate CountedRow(db: DB, g: nat, k: nat)
    requires Laid(db) && k < |db.slots|
  {
    var m := db.slots[k].owner;
    InGroup(db, m, g) && Counts(db.matches[m].status) && db.slots[k].team.Some?
  }

  /** The aggregates of one participant over the first n slot rows. */
  function StandingOf(db: DB, g: nat, t: Team, n: nat): (r: Standing)
    requires Laid(db) && n <= |db.slots|
    ensures r.team == t
  {
    if n == 0 then Standing(t, if t in db.names then db.names[t] else 0, 0, 0, 0, 0, 0)
    else
      var r := StandingOf(db, g, t, n - 1);
      var row := db.slots[n - 1];
      if CountedRow(db, g, n - 1) && row.team == Some(t) then
        var w := db.matches[row.owner].winner;
        r.(played := r.played + 1,
           won := r.won + (if w == Some(t) then 1 else 0),
           lost := r.lost + (if w.Some? && w != Some(t) then 1 else 0),
           gamesFor := r.gamesFor + GamesOf(db.scores[row.owner], row.side),
           gamesAgainst := r.gamesAgainst + GamesOf(db.scores[row.owner], 3 - row.side))
      else r
  }

  /** The group's participants, in order of first appearance. */
  function TeamsOf(db: DB, g: nat, n: nat): seq<Team>
    requires Laid(db) && n <= |db.slots|
  {
    if n == 0 then []
    else
      var ts := TeamsOf(db, g, n - 1);
      var row := db.slots[n - 1];
      if InGroup(db, row.owner, g) && row.team.Some? && row.team.value !in ts then ts + [row.team.value] else ts
  }

  function RowsOf(db: DB, g: nat): seq<Standing>
    requires Laid(db)
  {
    var ts := TeamsOf(db, g, |db.slots|);
    seq(|ts|, i requires 0 <= i < |ts| => StandingOf(db, g, ts[i], |db.slots|))
  }

  /** ORDER BY won DESC, games difference DESC, name. */
  predicate Above(a: Standing, b: Standing) {
    var da, db := a.gamesFor - a.gamesAgainst, b.gamesFor - b.gamesAgainst;
    || a.won > b.won
    || (a.won == b.won && da > db)
    || (a.won == b.won && da == db && a.name < b.name)
  }

  function Rank(s: Standing, table: seq<Standing>): seq<Standing> {
    if table == [] then [s]
    else
      var n := |table| - 1;
      if Above(s, table[n]) then Rank(s, table[..n]) + [table[n]] else table + [s]
  }

  function Ranked(rows: seq<Standing>): seq<Standing> {
    if rows == [] then [] else Rank(rows[|rows| - 1], Ranked(rows[..|rows| - 1]))
  }

  function TeamOf(s: Standing): Team {
    s.team
  }

  /** standingsForGroup. */
  function Standings(db: DB, g: nat): seq<Standing>
    requires Laid(db)
  {
    Ranked(RowsOf(db, g))
  }

  /** The teams by rank once the group is complete, nobody before. */
  function Placed(db: DB, g: nat): seq<Team>
    requires Laid(db)
  {
    if GroupComplete(db, g) then Map(TeamOf, Standings(db, g)) else []
  }

  // The order of the table

  ghost predicate StrictlyRanked(table: seq<Standing>) {
    forall i, j :: 0 <= i < j < |table| ==> Above(table[i], table[j])
  }

  ghost predicate DistinctNames(rows: seq<Standing>) {
    forall i, j :: 0 <= i < j < |rows| ==> rows[i].name != rows[j].name
  }

  lemma {:induction false} RankKeepsOrder(s: Standing, table: seq<Standing>)
    requires StrictlyRanked(table)
    requires forall i :: 0 <= i < |table| ==> table[i].name != s.name
    ensures StrictlyRanked(Rank(s, table))
    ensures forall x :: x in Rank(s, table) <==> x == s || x in table
    ensures |Rank(s, table)| == |table| + 1
  {
    if table != [] {
      var n := |table| - 1;
      assert table == table[..n] + [table[n]];
      if Above(s, table[n]) {
        var rest := Rank(s, table[..n]);
        RankKeepsOrder(s, table[..n]);
        assert forall i :: 0 <= i < |rest| ==> rest[i] in rest;
      }
    }
  }

  /** The table is a strictly ordered permutation of its rows. */
  lemma {:induction false} RankedIsOrdered(rows: seq<Standing>)
    requires DistinctNames(rows)
    ensures StrictlyRanked(Ranked(rows))
    ensures |Ranked(rows)| == |rows|
    ensures forall x :: x in Ranked(rows) <==> x in rows
  {
    if rows != [] {
      var n := |rows| - 1;
      assert rows == rows[..n] + [rows[n]];
      RankedIsOrdered(rows[..n]);
      var table := Ranked(rows[..n]);
      forall i | 0 <= i < |table|
        ensures table[i].name != rows[n].name
      {
        assert table[i] in rows[..n];
      }
      RankKeepsOrder(rows[n], table);
    }
  }

  /** A strict order leaves the database no choice: any ordering of the same rows
      is this one. */
  lemma {:induction false} OrderIsUnique(a: seq<Standing>, b: seq<Standing>)
    requires StrictlyRanked(a) && StrictlyRanked(b)
    requires forall x :: x in a <==> x in b
    ensures a == b
  {
    if |a| > 0 { assert a[0] in b; }
    if |b| > 0 { assert b[0] in a; }
    if a != [] {
      var j :| 0 <= j < |b| && b[j] == a[0];
      var i :| 0 <= i < |a| && a[i] == b[0];
      assert a[0] == b[0];
      SameTails(a, b);
      OrderIsUnique(a[1..], b[1..]);
      assert a == [a[0]] + a[1..] == [b[0]] + b[1..] == b;
    }
  }

  lemma SameTails(a: seq<Standing>, b: seq<Standing>)
    requires StrictlyRanked(a) && StrictlyRanked(b) && a != [] && b != [] && a[0] == b[0]
    requires forall x :: x in a <==> x in b
    ensures forall x :: x in a[1..] <==> x in b[1..]
  {
    forall x
      ensures x in a[1..] <==> x in b[1..]
    {
      assert x in a[1..] <==> x in a && x != a[0];
      assert x in b[1..] <==> x in b && x != b[0];
    }
  }

  // What the table is about

  /** Team t appears in some slot of group g. */
  ghost predicate Belongs(db: DB, g: nat, t: Team)
    requires Laid(db)
  {
    exists k :: 0 <= k < |db.slots| && db.slots[k].team == Some(t) && InGroup(db, db.slots[k].owner, g)
  }

  lemma {:induction false} TeamsOfGroup(db: DB, g: nat, n: nat)
    requires Laid(db) && n <= |db.slots|
    ensures NoRepeats(TeamsOf(db, g, n))
    ensures forall t :: t in TeamsOf(db, g, n) <==>
              exists k :: 0 <= k < n && db.slots[k].team == Some(t) && InGroup(db, db.slots[k].owner, g)
  {
    if n > 0 {
      TeamsOfGroup(db, g, n - 1);
    }
  }

  /** Display names tell participants apart. */
  ghost predicate NamesDistinct(names: map<Team, int>) {
    forall t, u :: t in names && u in names && t != u ==> names[t] != names[u]
  }

  lemma {:induction false} StandingName(db: DB, g: nat, t: Team, n: nat)
    requires Laid(db) && n <= |db.slots| && t in db.names
    ensures StandingOf(db, g, t, n).name == db.names[t]
  {
    if n > 0 { StandingName(db, g, t, n - 1); }
  }

  /** The standings list exactly the group's teams, each once, in strict order. */
  lemma StandingsPermuteTeams(db: DB, g: nat)
    requires Laid(db) && NamesDistinct(db.names)
    requires forall t :: Belongs(db, g, t) ==> t in db.names
    ensures StrictlyRanked(Standings(db, g))
    ensures NoRepeats(Map(TeamOf, Standings(db, g)))
    ensures forall t :: t in Map(TeamOf, Standings(db, g)) <==> Belongs(db, g, t)
    ensures |Standings(db, g)| == |TeamsOf(db, g, |db.slots|)|
  {
    var n, ts, rows, table := |db.slots|, TeamsOf(db, g, |db.slots|), RowsOf(db, g), Standings(db, g);
    TeamsOfGroup(db, g, n);
    forall i | 0 <= i < |ts|
      ensures ts[i] in db.names && rows[i].name == db.names[ts[i]]
    {
      assert ts[i] in ts && Belongs(db, g, ts[i]);
      StandingName(db, g, ts[i], n);
    }
    RankedIsOrdered(rows);
    TableTeams(rows, table, ts);
  }

  lemma TableTeams(rows: seq<Standing>, table: seq<Standing>, ts: seq<Team>)
    requires StrictlyRanked(table) && |rows| == |ts|
    requires forall x :: x in table <==> x in rows
    requires forall i :: 0 <= i < |ts| ==> rows[i].team == ts[i]
    requires NoRepeats(ts)
    ensures NoRepeats(Map(TeamOf, table))
    ensures forall t :: t in Map(TeamOf, table) <==> t in ts
  {
    var teams := Map(TeamOf, table);
    forall i, j | 0 <= i < j < |teams|
      ensures teams[i] != teams[j]
    {
      assert table[i] in rows && table[j] in rows;
      assert Above(table[i], table[j]) && !Above(table[i], table[i]);
    }
    forall t
      ensures t in teams <==> t in ts
    {
      if t in teams {
        var i :| 0 <= i < |teams| && teams[i] == t;
        assert table[i] in rows;
      }
      if t in ts {
        var i :| 0 <= i < |ts| && ts[i] == t;
        assert rows[i] in table;
        var j :| 0 <= j < |table| && table[j] == rows[i];
        assert teams[j] == t;
      }
    }
  }

  /** In the standings an earlier team has more wins, or as many and a better games
      difference, or the same difference too and a smaller name. */
  lemma StandingsOrder(db: DB, g: nat, i: nat, j: nat)
    requires Laid(db) && NamesDistinct(db.names)
    requires forall t :: Belongs(db, g, t) ==> t in db.names
    requires i < j < |Standings(db, g)|
    ensures var a, b := Standings(db, g)[i], Standings(db, g)[j];
            && a.won >= b.won
            && (a.won == b.won ==> a.gamesFor - a.gamesAgainst >= b.gamesFor - b.gamesAgainst)
            && (a.won == b.won && a.gamesFor - a.gamesAgainst == b.gamesFor - b.gamesAgainst ==> a.name < b.name)
  {
    StandingsPermuteTeams(db, g);
  }
}
