/** Manual fixtures of a round-robin event (draw/manual_setup.go). */
module Fixtures {
  import opened Wrappers
  import opened Seqs
  import opened Scoring
  import Bracket

  type Team = Bracket.Team

  datatype Fixture = Fixture(id: nat, no: nat, team1: Team, team2: Team, status: Status)

  /** The event's participants in seed order, its fixtures, and the next free id. */
  datatype Event = Event(players: seq<Team>, rows: seq<Fixture>, next: nat)

  predicate Open(s: Status) {
    s == Pending || s == Scheduled || s == Live
  }

  /** Neither cancelled nor a bye: the fixture stands for its pairing. */
  predicate Stands(s: Status) {
    s != Voided && s != Bye
  }

  /** The unordered pair. */
  function Key(a: Team, b: Team): (Team, Team) {
    if b < a then (b, a) else (a, b)
  }

  function KeyOf(f: Fixture): (Team, Team) {
    Key(f.team1, f.team2)
  }

  // Duplicates

  predicate SamePairing(f: Fixture, a: Team, b: Team) {
    KeyOf(f) == Key(a, b) && Stands(f.status)
  }

  function InsertNewest(f: Fixture, s: seq<Fixture>): seq<Fixture> {
    if s == [] || s[0].no <= f.no then [f] + s else [s[0]] + InsertNewest(f, s[1..])
  }

  /** The pair's standing fixtures, highest number first. */
  function Duplicates(rows: seq<Fixture>, a: Team, b: Team): seq<Fixture> {
    if rows == [] then []
    else
      var before, f := Duplicates(rows[..|rows| - 1], a, b), rows[|rows| - 1];
      if SamePairing(f, a, b) then InsertNewest(f, before) else before
  }

  datatype Ruling = Blocked(prior: Fixture, rematchable: bool) | Free(rematch: bool)

  function FirstOpen(s: seq<Fixture>): Option<Fixture> {
    if s == [] then None else if Open(s[0].status) then Some(s[0]) else FirstOpen(s[1..])
  }

  function FirstPlayed(s: seq<Fixture>): Option<Fixture> {
    if s == [] then None else if Counts(s[0].status) then Some(s[0]) else FirstPlayed(s[1..])
  }

  function Classify(dups: seq<Fixture>, allowRematch: bool): Ruling {
    match FirstOpen(dups)
    case Some(f) => Blocked(f, false)
    case None =>
      match FirstPlayed(dups)
      case None => Free(false)
      case Some(f) => if allowRematch then Free(true) else Blocked(f, true)
  }

  method ClassifyDuplicate(dups: seq<Fixture>, allowRematch: bool) returns (r: Ruling)
    ensures r == Classify(dups, allowRematch)
  {
    var decided: Option<Fixture> := None;
    for i := 0 to |dups|
      invariant FirstOpen(dups) == FirstOpen(dups[i..])
      invariant FirstPlayed(dups) == if decided.Some? then decided else FirstPlayed(dups[i..])
    {
      assert dups[i..][1..] == dups[i + 1..];
      match dups[i].status {
        case Pending | Scheduled | Live =>
          return Blocked(dups[i], false);
        case Completed | WalkedOver | RetiredFrom =>
          if decided.None? {
            decided := Some(dups[i]);
          }
        case _ =>
      }
    }
    if decided.None? {
      return Free(false);
    }
    r := if allowRematch then Free(true) else Blocked(decided.value, true);
  }

  // The operations

  datatype Outcome =
    | Created(no: nat, rematchOf: Option<nat>)
    | Duplicate(no: nat, status: Status, rematchable: bool)
    | Generated(created: int, existing: int)
    | Deleted
    | NotFound
    | BadRequest

  function MaxNo(rows: seq<Fixture>): nat {
    if rows == [] then 0
    else
      var before, no := MaxNo(rows[..|rows| - 1]), rows[|rows| - 1].no;
      if no > before then no else before
  }

  function Append(e: Event, a: Team, b: Team): Event {
    e.(rows := e.rows + [Fixture(e.next, MaxNo(e.rows) + 1, a, b, Pending)], next := e.next + 1)
  }

  function AddStep(e: Event, a: Team, b: Team, allowRematch: bool): (Event, Outcome) {
    if a == b || a !in e.players || b !in e.players then (e, BadRequest)
    else
      var dups := Duplicates(e.rows, a, b);
      match Classify(dups, allowRematch)
      case Blocked(f, again) => (e, Duplicate(f.no, f.status, again))
      case Free(rematch) =>
        (Append(e, a, b), Created(MaxNo(e.rows) + 1, if rematch && dups != [] then Some(dups[0].no) else None))
  }

  function KeysOf(rows: seq<Fixture>): set<(Team, Team)> {
    set f | f in rows && Stands(f.status) :: KeyOf(f)
  }

  /** A new fixture for the pair, unless one stands for it already. */
  function Provided(e: Event, have: set<(Team, Team)>, a: Team, b: Team): Event {
    if Key(a, b) in have then e else Append(e, a, b)
  }

  /** The event once the nested loops stand before the pair (i, j). */
  function FilledTo(e: Event, have: set<(Team, Team)>, i: nat, j: nat): (r: Event)
    requires i < j <= |e.players|
    ensures r.players == e.players && |r.rows| >= |e.rows|
    decreases i, j
  {
    if j > i + 1 then Provided(FilledTo(e, have, i, j - 1), have, e.players[i], e.players[j - 1])
    else if i > 0 then FilledTo(e, have, i - 1, |e.players|)
    else e
  }

  function GenerateStep(e: Event): (Event, Outcome) {
    if |e.players| < 2 then (e, BadRequest)
    else
      var after := FilledTo(e, KeysOf(e.rows), |e.players| - 1, |e.players|);
      (after, Generated(|after.rows| - |e.rows|, |KeysOf(e.rows)|))
  }

  function RowOf(rows: seq<Fixture>, id: nat): (r: Option<nat>)
    ensures r.Some? ==> r.value < |rows| && rows[r.value].id == id
    ensures r.None? ==> forall i :: 0 <= i < |rows| ==> rows[i].id != id
  {
    if rows == [] then None
    else if rows[|rows| - 1].id == id then Some(|rows| - 1)
    else RowOf(rows[..|rows| - 1], id)
  }

  function DeleteStep(e: Event, id: nat): (Event, Outcome) {
    match RowOf(e.rows, id)
    case None => (e, NotFound)
    case Some(i) =>
      if e.rows[i].status != Pending then (e, BadRequest)
      else (e.(rows := e.rows[..i] + e.rows[i + 1..]), Deleted)
  }

  /** The fixtures of one round-robin event. */
  class Store {
    const players: seq<Team>
    var rows: seq<Fixture>
    var next: nat

    constructor (entered: seq<Team>)
      ensures Contents() == Event(entered, [], 0)
    {
      players, rows, next := entered, [], 0;
    }

    ghost function Contents(): Event
      reads this
    {
      Event(players, rows, next)
    }

    method Insert(no: nat, a: Team, b: Team)
      requires no == MaxNo(rows) + 1
      modifies this
      ensures Contents() == Append(old(Contents()), a, b)
      ensures MaxNo(rows) == no
    {
      rows, next := rows + [Fixture(next, no, a, b, Pending)], next + 1;
      assert rows[..|rows| - 1] == old(rows);
    }

    method AddManualMatch(a: Team, b: Team, allowRematch: bool) returns (out: Outcome)
      modifies this
      ensures (Contents(), out) == AddStep(old(Contents()), a, b, allowRematch)
    {
      if a == b {
        return BadRequest;
      }
      if a !in players || b !in players {
        return BadRequest;
      }
      var dups := Duplicates(rows, a, b);
      var ruling := ClassifyDuplicate(dups, allowRematch);
      if ruling.Blocked? {
        return Duplicate(ruling.prior.no, ruling.prior.status, ruling.rematchable);
      }
      var nextNo := MaxNo(rows) + 1;
      Insert(nextNo, a, b);
      out := Created(nextNo, if ruling.rematch && dups != [] then Some(dups[0].no) else None);
    }

    method GenerateRoundRobinFixtures() returns (out: Outcome)
      modifies this
      ensures (Contents(), out) == GenerateStep(old(Contents()))
    {
      if |players| < 2 {
        return BadRequest;
      }
      var have := KeysOf(rows);
      var created := FillAll(have, MaxNo(rows) + 1);
      out := Generated(created, |have|);
    }

    /** The outer loop. */
    method FillAll(have: set<(Team, Team)>, no: nat) returns (created: nat)
      requires no == MaxNo(rows) + 1 && |players| >= 2
      modifies this
      ensures Contents() == FilledTo(old(Contents()), have, |players| - 1, |players|)
      ensures |rows| == |old(rows)| + created
    {
      created := 0;
      ghost var before := Contents();
      for i := 0 to |players|
        invariant Contents() == if i == 0 then before else FilledTo(before, have, i - 1, |players|)
        invariant no + created == MaxNo(rows) + 1 && |rows| == |old(rows)| + created
      {
        var added := FillRow(before, have, i, no + created);
        created := created + added;
      }
    }

    /** The inner loop: every later participant against the one at i. */
    method FillRow(ghost before: Event, have: set<(Team, Team)>, i: nat, no: nat) returns (created: nat)
      requires before.players == players && i < |players| && Contents() == FilledTo(before, have, i, i + 1)
      requires no == MaxNo(rows) + 1
      modifies this
      ensures Contents() == FilledTo(before, have, i, |players|)
      ensures no + created == MaxNo(rows) + 1 && |rows| == |old(rows)| + created
    {
      created := 0;
      for j := i + 1 to |players|
        invariant Contents() == FilledTo(before, have, i, j)
        invariant no + created == MaxNo(rows) + 1 && |rows| == |old(rows)| + created
      {
        var added := FillPair(have, players[i], players[j], no + created);
        created := created + added;
      }
    }

    method FillPair(have: set<(Team, Team)>, a: Team, b: Team, no: nat) returns (added: nat)
      requires no == MaxNo(rows) + 1
      modifies this
      ensures Contents() == Provided(old(Contents()), have, a, b)
      ensures no + added == MaxNo(rows) + 1 && |rows| == |old(rows)| + added
    {
      if Key(a, b) in have {
        return 0;
      }
      Insert(no, a, b);
      added := 1;
    }

    method DeleteManualMatch(id: nat) returns (out: Outcome)
      modifies this
      ensures (Contents(), out) == DeleteStep(old(Contents()), id)
    {
      var row := RowOf(rows, id);
      if row.None? {
        return NotFound;
      }
      if rows[row.value].status != Pending {
        return BadRequest;
      }
      rows := rows[..row.value] + rows[row.value + 1..];
      out := Deleted;
    }
  }

  // What every run keeps

  predicate PlayersOf(e: Event, f: Fixture) {
    f.team1 != f.team2 && f.team1 in e.players && f.team2 in e.players
  }

  predicate TwoDiffer(f: Fixture, g: Fixture) {
    f.id != g.id && f.no != g.no && (Open(f.status) && Open(g.status) ==> KeyOf(f) != KeyOf(g))
  }

  /** Ids and numbers are unique, and no pair has two open fixtures. */
  ghost predicate Tidy(e: Event) {
    && NoRepeats(e.players)
    && (forall i :: 0 <= i < |e.rows| ==> PlayersOf(e, e.rows[i]) && e.rows[i].id < e.next)
    && (forall i, j :: 0 <= i < j < |e.rows| ==> TwoDiffer(e.rows[i], e.rows[j]))
  }

  lemma {:induction false} MaxNoBounds(rows: seq<Fixture>)
    ensures forall i :: 0 <= i < |rows| ==> rows[i].no <= MaxNo(rows)
  {
    if rows != [] { MaxNoBounds(rows[..|rows| - 1]); }
  }

  predicate NoneOpen(rows: seq<Fixture>, key: (Team, Team)) {
    forall i :: 0 <= i < |rows| && KeyOf(rows[i]) == key ==> !Open(rows[i].status)
  }

  /** A new fixture keeps the table tidy exactly when its pair has no open one. */
  lemma AppendTidyIff(e: Event, a: Team, b: Team)
    requires Tidy(e) && a != b && a in e.players && b in e.players
    ensures Tidy(Append(e, a, b)) <==> NoneOpen(e.rows, Key(a, b))
  {
    var after, n := Append(e, a, b), |e.rows|;
    MaxNoBounds(e.rows);
    if !NoneOpen(e.rows, Key(a, b)) {
      var i :| 0 <= i < n && KeyOf(e.rows[i]) == Key(a, b) && Open(e.rows[i].status);
      assert !TwoDiffer(after.rows[i], after.rows[n]);
    }
  }

  // Duplicates by hand

  lemma {:induction false} InsertedAre(f: Fixture, s: seq<Fixture>)
    ensures forall x :: x in InsertNewest(f, s) <==> x == f || x in s
  {
    if s != [] && s[0].no > f.no { InsertedAre(f, s[1..]); }
  }

  lemma {:induction false} DuplicatesAre(rows: seq<Fixture>, a: Team, b: Team)
    ensures forall x :: x in Duplicates(rows, a, b) <==> x in rows && SamePairing(x, a, b)
  {
    if rows != [] {
      DuplicatesAre(rows[..|rows| - 1], a, b);
      InsertedAre(rows[|rows| - 1], Duplicates(rows[..|rows| - 1], a, b));
      assert rows == rows[..|rows| - 1] + [rows[|rows| - 1]];
    }
  }

  lemma {:induction false} FirstOpenMeaning(s: seq<Fixture>)
    ensures FirstOpen(s).Some? <==> exists x :: x in s && Open(x.status)
    ensures FirstOpen(s).Some? ==> FirstOpen(s).value in s && Open(FirstOpen(s).value.status)
  {
    if s != [] {
      FirstOpenMeaning(s[1..]);
      assert s == [s[0]] + s[1..];
    }
  }

  lemma {:induction false} FirstPlayedMeaning(s: seq<Fixture>)
    ensures FirstPlayed(s).Some? <==> exists x :: x in s && Counts(x.status)
  {
    if s != [] {
      FirstPlayedMeaning(s[1..]);
      assert s == [s[0]] + s[1..];
    }
  }

  predicate NonePlayed(rows: seq<Fixture>, key: (Team, Team)) {
    forall i :: 0 <= i < |rows| && KeyOf(rows[i]) == key ==> !Counts(rows[i].status)
  }

  lemma RulingMeaning(rows: seq<Fixture>, a: Team, b: Team, allowRematch: bool)
    ensures Classify(Duplicates(rows, a, b), allowRematch).Free? <==>
            NoneOpen(rows, Key(a, b)) && (NonePlayed(rows, Key(a, b)) || allowRematch)
  {
    var dups := Duplicates(rows, a, b);
    DuplicatesAre(rows, a, b);
    FirstOpenMeaning(dups);
    FirstPlayedMeaning(dups);
    assert forall i :: 0 <= i < |rows| ==> rows[i] in rows;
  }

  /** A fixture can be added by hand exactly when its two players differ and belong to
      the event, they have no open fixture in either order, and, unless a rematch is
      allowed, none they have played. Otherwise nothing changes. */
  lemma AddedExactlyWhenFree(e: Event, a: Team, b: Team, allowRematch: bool)
    ensures AddStep(e, a, b, allowRematch).1.Created? <==>
            && a != b && a in e.players && b in e.players
            && NoneOpen(e.rows, Key(a, b)) && (NonePlayed(e.rows, Key(a, b)) || allowRematch)
    ensures !AddStep(e, a, b, allowRematch).1.Created? ==> AddStep(e, a, b, allowRematch).0 == e
    ensures AddStep(e, b, a, allowRematch).1.Created? <==> AddStep(e, a, b, allowRematch).1.Created?
  {
    RulingMeaning(e.rows, a, b, allowRematch);
    RulingMeaning(e.rows, b, a, allowRematch);
  }

  ghost predicate NewestFirst(s: seq<Fixture>) {
    forall i, j :: 0 <= i < j < |s| ==> s[i].no >= s[j].no
  }

  lemma {:induction false} InsertSorted(f: Fixture, s: seq<Fixture>)
    requires NewestFirst(s)
    ensures NewestFirst(InsertNewest(f, s))
  {
    if s != [] && s[0].no > f.no {
      InsertSorted(f, s[1..]);
      InsertedAre(f, s[1..]);
      var rest := InsertNewest(f, s[1..]);
      forall i | 0 <= i < |rest|
        ensures rest[i].no <= s[0].no
      {
        assert rest[i] in rest;
      }
    } else if s != [] {
      assert forall i :: 0 <= i < |s| ==> s[i].no <= s[0].no;
    }
  }

  lemma {:induction false} DuplicatesSorted(rows: seq<Fixture>, a: Team, b: Team)
    ensures NewestFirst(Duplicates(rows, a, b))
  {
    if rows != [] {
      DuplicatesSorted(rows[..|rows| - 1], a, b);
      InsertSorted(rows[|rows| - 1], Duplicates(rows[..|rows| - 1], a, b));
    }
  }

  /** A rematch is recorded against the pair's most recent standing fixture. */
  lemma RematchOfNewest(e: Event, a: Team, b: Team, i: nat)
    requires AddStep(e, a, b, true).1.Created? && i < |e.rows| && SamePairing(e.rows[i], a, b)
    ensures var prior := AddStep(e, a, b, true).1.rematchOf;
            && prior.Some? && e.rows[i].no <= prior.value
            && exists f :: f in e.rows && SamePairing(f, a, b) && Counts(f.status) && f.no == prior.value
  {
    var dups := Duplicates(e.rows, a, b);
    DuplicatesAre(e.rows, a, b);
    DuplicatesSorted(e.rows, a, b);
    FirstOpenMeaning(dups);
    FirstPlayedMeaning(dups);
    assert e.rows[i] in dups && dups[0] in dups;
    assert !Open(dups[0].status) && !Open(e.rows[i].status);
    var k :| 0 <= k < |dups| && dups[k] == e.rows[i];
  }

  // Filling in

  function PairKeys(ps: seq<(Team, Team)>): seq<(Team, Team)> {
    seq(|ps|, i requires 0 <= i < |ps| => Key(ps[i].0, ps[i].1))
  }

  predicate GoodPair(e: Event, p: (Team, Team)) {
    p.0 != p.1 && p.0 in e.players && p.1 in e.players
  }

  ghost predicate AllGood(e: Event, ps: seq<(Team, Team)>) {
    forall i :: 0 <= i < |ps| ==> GoodPair(e, ps[i])
  }

  lemma AppendKeys(rows: seq<Fixture>, f: Fixture)
    requires Stands(f.status)
    ensures KeysOf(rows + [f]) == KeysOf(rows) + {KeyOf(f)}
  {
    assert forall x :: x in rows + [f] <==> x in rows || x == f;
    assert f in rows + [f];
  }

  lemma OpenStands(rows: seq<Fixture>, key: (Team, Team))
    requires key !in KeysOf(rows)
    ensures NoneOpen(rows, key)
  {
    assert forall i :: 0 <= i < |rows| ==> rows[i] in rows;
  }

  /** Filling in keeps the table tidy, adds one pairing per new fixture, and stands for
      exactly the pairs asked for beside those it had. */
  lemma {:induction false} FilledCovers(e: Event, ps: seq<(Team, Team)>)
    requires Tidy(e) && NoRepeats(PairKeys(ps)) && AllGood(e, ps)
    ensures var after := Filled(e, KeysOf(e.rows), ps);
            && Tidy(after) && after.players == e.players
            && (forall k :: k in KeysOf(after.rows) <==> k in KeysOf(e.rows) || k in PairKeys(ps))
            && |after.rows| >= |e.rows| && |KeysOf(after.rows)| == |KeysOf(e.rows)| + |after.rows| - |e.rows|
  {
    if ps != [] {
      var n, have := |ps| - 1, KeysOf(e.rows);
      var before, p := Filled(e, have, ps[..n]), ps[n];
      assert PairKeys(ps) == PairKeys(ps[..n]) + [Key(p.0, p.1)];
      DropLast(PairKeys(ps[..n]), Key(p.0, p.1));
      FilledCovers(e, ps[..n]);
      assert GoodPair(e, p);
      if Key(p.0, p.1) !in have {
        NewPairing(before, p.0, p.1);
      }
    }
  }

  lemma NewPairing(e: Event, a: Team, b: Team)
    requires Tidy(e) && a != b && a in e.players && b in e.players && Key(a, b) !in KeysOf(e.rows)
    ensures Tidy(Append(e, a, b)) && KeysOf(Append(e, a, b).rows) == KeysOf(e.rows) + {Key(a, b)}
    ensures |KeysOf(Append(e, a, b).rows)| == |KeysOf(e.rows)| + 1
  {
    OpenStands(e.rows, Key(a, b));
    AppendTidyIff(e, a, b);
    AppendKeys(e.rows, Append(e, a, b).rows[|e.rows|]);
  }

  /** Pairs of the participant at i with those after it, up to j. */
  function Inner(players: seq<Team>, i: nat, j: nat): seq<(Team, Team)>
    requires i < j <= |players|
  {
    if j == i + 1 then [] else Inner(players, i, j - 1) + [(players[i], players[j - 1])]
  }

  function Outer(players: seq<Team>, i: nat): seq<(Team, Team)>
    requires i <= |players|
  {
    if i == 0 then [] else Outer(players, i - 1) + Inner(players, i - 1, |players|)
  }

  /** The pairs ps, each provided for in turn. */
  function Filled(e: Event, have: set<(Team, Team)>, ps: seq<(Team, Team)>): Event {
    if ps == [] then e
    else Provided(Filled(e, have, ps[..|ps| - 1]), have, ps[|ps| - 1].0, ps[|ps| - 1].1)
  }

  lemma FilledMore(e: Event, have: set<(Team, Team)>, ps: seq<(Team, Team)>, a: Team, b: Team)
    ensures Filled(e, have, ps + [(a, b)]) == Provided(Filled(e, have, ps), have, a, b)
  {
    assert (ps + [(a, b)])[..|ps|] == ps;
  }

  /** The pairs before (i, j), in the order the loops visit them. */
  function PairsTo(players: seq<Team>, i: nat, j: nat): seq<(Team, Team)>
    requires i < j <= |players|
  {
    Outer(players, i) + Inner(players, i, j)
  }

  lemma NextPair(players: seq<Team>, i: nat, j: nat)
    requires i + 1 < j <= |players|
    ensures PairsTo(players, i, j) == PairsTo(players, i, j - 1) + [(players[i], players[j - 1])]
  {
  }

  lemma NextRow(players: seq<Team>, i: nat)
    requires i < |players|
    ensures PairsTo(players, i, i + 1) == Outer(players, i)
    ensures PairsTo(players, i, |players|) == Outer(players, i + 1)
  {
  }

  lemma {:induction false} LoopsFill(e: Event, have: set<(Team, Team)>, i: nat, j: nat)
    requires i < j <= |e.players|
    ensures FilledTo(e, have, i, j) == Filled(e, have, PairsTo(e.players, i, j))
    decreases i, j
  {
    if j > i + 1 {
      LoopsFill(e, have, i, j - 1);
      FilledMore(e, have, PairsTo(e.players, i, j - 1), e.players[i], e.players[j - 1]);
      NextPair(e.players, i, j);
    } else {
      NextRow(e.players, i);
      if i > 0 {
        LoopsFill(e, have, i - 1, |e.players|);
        NextRow(e.players, i - 1);
      }
    }
  }

  lemma {:induction false} InnerAre(players: seq<Team>, i: nat, j: nat)
    requires i < j <= |players|
    ensures |Inner(players, i, j)| == j - i - 1
    ensures forall k :: 0 <= k < j - i - 1 ==> Inner(players, i, j)[k] == (players[i], players[i + 1 + k])
  {
    if j > i + 1 { InnerAre(players, i, j - 1); }
  }

  /** Pairs visited by the first i rounds of the outer loop over n players. */
  function PairCount(n: int, i: nat): int {
    if i == 0 then 0 else PairCount(n, i - 1) + (n - i)
  }

  lemma {:induction false} PairCountIs(n: int, i: nat)
    ensures 2 * PairCount(n, i) == i * (2 * n - i - 1)
  {
    if i > 0 { PairCountIs(n, i - 1); }
  }

  ghost predicate ListsPairs(players: seq<Team>, ps: seq<(Team, Team)>, i: nat) {
    forall p :: p in ps <==> exists x, y :: 0 <= x < i && x < y < |players| && p == (players[x], players[y])
  }

  /** The nested loops visit every pair of positions once. */
  lemma {:induction false} OuterAre(players: seq<Team>, i: nat)
    requires i <= |players| && NoRepeats(players)
    ensures ListsPairs(players, Outer(players, i), i)
    ensures NoRepeats(Outer(players, i))
  {
    if i > 0 {
      OuterAre(players, i - 1);
      InnerAre(players, i - 1, |players|);
      AddInner(players, i - 1, Outer(players, i - 1), Inner(players, i - 1, |players|));
    }
  }

  lemma {:induction false} OuterCount(players: seq<Team>, i: nat)
    requires i <= |players|
    ensures |Outer(players, i)| == PairCount(|players|, i)
  {
    if i > 0 {
      OuterCount(players, i - 1);
      InnerAre(players, i - 1, |players|);
    }
  }

  lemma AddInner(players: seq<Team>, i: nat, done: seq<(Team, Team)>, row: seq<(Team, Team)>)
    requires i < |players| && NoRepeats(players)
    requires ListsPairs(players, done, i) && NoRepeats(done)
    requires |row| == |players| - i - 1 && forall k :: 0 <= k < |row| ==> row[k] == (players[i], players[i + 1 + k])
    ensures ListsPairs(players, done + row, i + 1) && NoRepeats(done + row)
  {
    forall p
      ensures p in done + row <==> exists x, y :: 0 <= x < i + 1 && x < y < |players| && p == (players[x], players[y])
    {
      if x, y :| 0 <= x < i + 1 && x < y < |players| && p == (players[x], players[y]) {
        if x == i { assert row[y - i - 1] == p; }
      }
    }
    forall a, b | 0 <= a < |done| && 0 <= b < |row|
      ensures done[a] != row[b]
    {
      assert done[a] in done;
    }
  }

  lemma KeyOfPair(ps: seq<(Team, Team)>, p: (Team, Team), key: (Team, Team))
    requires p in ps && Key(p.0, p.1) == key
    ensures key in PairKeys(ps)
  {
    var k :| 0 <= k < |ps| && ps[k] == p;
    assert PairKeys(ps)[k] == key;
  }

  /** Pairs of different positions have different keys. */
  lemma OuterKeys(players: seq<Team>)
    requires NoRepeats(players)
    ensures NoRepeats(PairKeys(Outer(players, |players|)))
    ensures forall a, b :: a in players && b in players && a != b ==> Key(a, b) in PairKeys(Outer(players, |players|))
  {
    var ps := Outer(players, |players|);
    OuterAre(players, |players|);
    forall a, b | a in players && b in players && a != b
      ensures Key(a, b) in PairKeys(ps)
    {
      var x :| 0 <= x < |players| && players[x] == a;
      var y :| 0 <= y < |players| && players[y] == b;
      KeyOfPair(ps, if x < y then (a, b) else (b, a), Key(a, b));
    }
    forall i, j | 0 <= i < j < |ps|
      ensures PairKeys(ps)[i] != PairKeys(ps)[j]
    {
      assert ps[i] in ps && ps[j] in ps;
    }
  }

  lemma {:induction false} NothingMissing(e: Event, have: set<(Team, Team)>, ps: seq<(Team, Team)>)
    requires forall i :: 0 <= i < |ps| ==> Key(ps[i].0, ps[i].1) in have
    ensures Filled(e, have, ps) == e
  {
    if ps != [] { NothingMissing(e, have, ps[..|ps| - 1]); }
  }

  /** Every two participants have a fixture that is neither cancelled nor a bye. */
  ghost predicate Complete(e: Event) {
    forall a, b :: a in e.players && b in e.players && a != b ==> Key(a, b) in KeysOf(e.rows)
  }

  lemma GoodPairs(e: Event)
    requires NoRepeats(e.players)
    ensures AllGood(e, Outer(e.players, |e.players|))
  {
    var ps := Outer(e.players, |e.players|);
    OuterAre(e.players, |e.players|);
    forall i | 0 <= i < |ps|
      ensures GoodPair(e, ps[i])
    {
      assert ps[i] in ps;
    }
  }

  /** Standing fixtures of a complete event cover each of the n(n-1)/2 pairs. */
  lemma CompleteCount(e: Event)
    requires Tidy(e) && Complete(e)
    ensures 2 * |KeysOf(e.rows)| == |e.players| * (|e.players| - 1)
  {
    var keys := PairKeys(Outer(e.players, |e.players|));
    OuterKeys(e.players);
    GoodPairs(e);
    OuterCount(e.players, |e.players|);
    PairCountIs(|e.players|, |e.players|);
    MembersCount(keys);
    forall k
      ensures k in Members(keys) <==> k in KeysOf(e.rows)
    {
      if k in keys {
        var i :| 0 <= i < |keys| && keys[i] == k;
        assert GoodPair(e, Outer(e.players, |e.players|)[i]);
      }
      if k in KeysOf(e.rows) {
        var f :| f in e.rows && Stands(f.status) && KeyOf(f) == k;
        assert PlayersOf(e, f);
      }
    }
    assert Members(keys) == KeysOf(e.rows);
  }

  /** Every pair provided for, in the order of the loops. */
  function Provide(e: Event): Event {
    Filled(e, KeysOf(e.rows), Outer(e.players, |e.players|))
  }

  lemma GenerateIs(e: Event)
    requires |e.players| >= 2
    ensures GenerateStep(e) == (Provide(e), Generated(|Provide(e).rows| - |e.rows|, |KeysOf(e.rows)|))
  {
    LoopsFill(e, KeysOf(e.rows), |e.players| - 1, |e.players|);
    NextRow(e.players, |e.players| - 1);
  }

  /** Generating leaves a tidy event in which every pair has its fixture, and reports
      n(n-1)/2 pairings in all, new and old. */
  lemma GenerateCompletes(e: Event)
    requires Tidy(e) && |e.players| >= 2
    ensures var (after, out) := GenerateStep(e);
            && Tidy(after) && Complete(after)
            && out.Generated? && 2 * (out.created + out.existing) == |e.players| * (|e.players| - 1)
            && |after.rows| == |e.rows| + out.created
  {
    GenerateIs(e);
    AllProvided(e);
    CompleteCount(Provide(e));
  }

  lemma AllProvided(e: Event)
    requires Tidy(e)
    ensures var after := Provide(e);
            && Tidy(after) && Complete(after) && after.players == e.players && |after.rows| >= |e.rows|
            && |KeysOf(after.rows)| == |KeysOf(e.rows)| + |after.rows| - |e.rows|
  {
    OuterKeys(e.players);
    GoodPairs(e);
    FilledCovers(e, Outer(e.players, |e.players|));
  }

  /** Generating again creates nothing and changes nothing. */
  lemma GenerateTwice(e: Event)
    requires Tidy(e) && |e.players| >= 2
    ensures var after := GenerateStep(e).0; GenerateStep(after) == (after, Generated(0, |KeysOf(after.rows)|))
  {
    GenerateCompletes(e);
    CompleteStays(GenerateStep(e).0);
  }

  lemma CompleteStays(e: Event)
    requires Tidy(e) && Complete(e) && |e.players| >= 2
    ensures GenerateStep(e) == (e, Generated(0, |KeysOf(e.rows)|))
  {
    GenerateIs(e);
    GoodPairs(e);
    NothingMissing(e, KeysOf(e.rows), Outer(e.players, |e.players|));
  }

  // Runs

  datatype Request = Add(a: Team, b: Team, allowRematch: bool) | Generate | Delete(id: nat) | Decide(id: nat, to: Status)

  function WithStatus(e: Event, i: nat, to: Status): Event
    requires i < |e.rows|
  {
    e.(rows := e.rows[i := e.rows[i].(status := to)])
  }

  /** A fixture moves on; one that is no longer open is never opened again. */
  function MovedOn(e: Event, id: nat, to: Status): Event {
    match RowOf(e.rows, id)
    case None => e
    case Some(i) => if !Open(e.rows[i].status) && Open(to) then e else WithStatus(e, i, to)
  }

  function Step(e: Event, q: Request): Event {
    match q
    case Add(a, b, allow) => AddStep(e, a, b, allow).0
    case Generate => GenerateStep(e).0
    case Delete(id) => DeleteStep(e, id).0
    case Decide(id, to) => MovedOn(e, id, to)
  }

  function Run(e: Event, qs: seq<Request>): Event {
    if qs == [] then e else Step(Run(e, qs[..|qs| - 1]), qs[|qs| - 1])
  }

  lemma AddKeepsTidy(e: Event, a: Team, b: Team, allowRematch: bool)
    requires Tidy(e)
    ensures Tidy(AddStep(e, a, b, allowRematch).0)
  {
    AddedExactlyWhenFree(e, a, b, allowRematch);
    if AddStep(e, a, b, allowRematch).1.Created? { AppendTidyIff(e, a, b); }
  }

  lemma DeleteKeepsTidy(e: Event, id: nat)
    requires Tidy(e)
    ensures Tidy(DeleteStep(e, id).0)
  {
    var after := DeleteStep(e, id).0;
    if after != e {
      var d := RowOf(e.rows, id).value;
      forall i | 0 <= i < |after.rows|
        ensures after.rows[i] == e.rows[if i < d then i else i + 1]
      {
      }
    }
  }

  /** On every run of adding, generating, deleting and deciding without reopening, no
      pair ever has two open fixtures and fixture numbers stay distinct. */
  lemma {:induction false} RunKeepsTidy(e: Event, qs: seq<Request>)
    requires Tidy(e)
    ensures Tidy(Run(e, qs))
  {
    if qs != [] {
      var before, q := Run(e, qs[..|qs| - 1]), qs[|qs| - 1];
      RunKeepsTidy(e, qs[..|qs| - 1]);
      StepKeepsTidy(before, q);
    }
  }

  lemma StepKeepsTidy(e: Event, q: Request)
    requires Tidy(e)
    ensures Tidy(Step(e, q))
  {
    match q
    case Add(a, b, allow) => AddKeepsTidy(e, a, b, allow);
    case Generate => if |e.players| >= 2 { GenerateCompletes(e); }
    case Delete(id) => DeleteKeepsTidy(e, id);
    case Decide(id, to) =>
  }

  // Reopening

  predicate OtherOpen(e: Event, i: nat)
    requires i < |e.rows|
  {
    exists j :: 0 <= j < |e.rows| && j != i && KeyOf(e.rows[j]) == KeyOf(e.rows[i]) && Open(e.rows[j].status)
  }

  /** Reopening a decided fixture leaves one open fixture a pair exactly when the pair
      has not been given another open one meanwhile. */
  lemma ReopenTidyIff(e: Event, i: nat, to: Status)
    requires Tidy(e) && i < |e.rows| && !Open(e.rows[i].status) && Open(to)
    ensures Tidy(WithStatus(e, i, to)) <==> !OtherOpen(e, i)
  {
    var after := WithStatus(e, i, to);
    if OtherOpen(e, i) {
      var j :| 0 <= j < |e.rows| && j != i && KeyOf(e.rows[j]) == KeyOf(e.rows[i]) && Open(e.rows[j].status);
      assert after.rows[j] == e.rows[j];
      assert !TwoDiffer(after.rows[i], after.rows[j]);
    }
  }

  /** A played pair, a rematch added, and the first result taken back: the pair then has
      two open fixtures. */
  lemma RematchThenReopen(e: Event, i: nat)
    requires Tidy(e) && i < |e.rows| && Counts(e.rows[i].status) && NoneOpen(e.rows, KeyOf(e.rows[i]))
    ensures var (after, out) := AddStep(e, e.rows[i].team1, e.rows[i].team2, true);
            out.Created? && i < |after.rows| && !Tidy(WithStatus(after, i, Live))
  {
    var a, b := e.rows[i].team1, e.rows[i].team2;
    assert PlayersOf(e, e.rows[i]);
    AddedExactlyWhenFree(e, a, b, true);
    AddKeepsTidy(e, a, b, true);
    var after := AddStep(e, a, b, true).0;
    assert OtherOpen(after, i) by { assert KeyOf(after.rows[|e.rows|]) == KeyOf(after.rows[i]); }
    ReopenTidyIff(after, i, Live);
  }

  // The outcomes by hand

  /** The fixture is between the two, on either side. */
  predicate Between(f: Fixture, a: Team, b: Team) {
    (f.team1 == a && f.team2 == b) || (f.team1 == b && f.team2 == a)
  }

  predicate ToPlay(f: Fixture) {
    f.status in {Pending, Scheduled, Live}
  }

  predicate WithResult(f: Fixture) {
    f.status in {Completed, WalkedOver, RetiredFrom}
  }

  lemma BetweenIs(f: Fixture, a: Team, b: Team)
    ensures KeyOf(f) == Key(a, b) <==> Between(f, a, b)
    ensures SamePairing(f, a, b) <==> Between(f, a, b) && f.status !in {Voided, Bye}
    ensures (Open(f.status) <==> ToPlay(f)) && (Counts(f.status) <==> WithResult(f))
  {
  }

  /** The newest fixture of the pair that the filter lets through. */
  ghost predicate Newest(rows: seq<Fixture>, a: Team, b: Team, which: Fixture -> bool, f: Fixture) {
    && f in rows && Between(f, a, b) && which(f)
    && forall x :: x in rows && Between(x, a, b) && which(x) ==> x.no <= f.no
  }

  lemma {:induction false} FirstIsNewest(s: seq<Fixture>)
    requires NewestFirst(s)
    ensures FirstOpen(s).Some? ==> forall x :: x in s && Open(x.status) ==> x.no <= FirstOpen(s).value.no
    ensures FirstPlayed(s).Some? ==> forall x :: x in s && Counts(x.status) ==> x.no <= FirstPlayed(s).value.no
    ensures FirstPlayed(s).Some? ==> FirstPlayed(s).value in s && Counts(FirstPlayed(s).value.status)
  {
    if s != [] {
      FirstIsNewest(s[1..]);
      assert s == [s[0]] + s[1..];
      forall x | x in s
        ensures x.no <= s[0].no
      {
        var i :| 0 <= i < |s| && s[i] == x;
      }
    }
  }

  /** What the ruling on a pair says, and about which fixture. */
  lemma RulingOf(rows: seq<Fixture>, a: Team, b: Team, allowRematch: bool)
    ensures var r := Classify(Duplicates(rows, a, b), allowRematch);
            var open, played := exists f :: f in rows && Between(f, a, b) && ToPlay(f),
                                exists f :: f in rows && Between(f, a, b) && WithResult(f);
            && (r.Blocked? <==> open || (played && !allowRematch))
            && (r.Blocked? ==> (r.rematchable <==> !open)
                               && Newest(rows, a, b, if open then ToPlay else WithResult, r.prior))
            && (r.Free? ==> (r.rematch <==> played))
  {
    var dups := Duplicates(rows, a, b);
    DuplicatesAre(rows, a, b);
    DuplicatesSorted(rows, a, b);
    FirstOpenMeaning(dups);
    FirstPlayedMeaning(dups);
    FirstIsNewest(dups);
    forall f
      ensures f in dups <==> f in rows && Between(f, a, b) && f.status !in {Voided, Bye}
      ensures (Open(f.status) <==> ToPlay(f)) && (Counts(f.status) <==> WithResult(f))
    {
      BetweenIs(f, a, b);
    }
  }

  /** Adding a fixture: refused for a pair that is no pair of participants; a duplicate exactly
      when one of the pair is still to be played, or one has a result and no rematch is
      allowed, reported with the newest such fixture and whether a rematch would be possible;
      otherwise created. A refusal changes nothing. */
  lemma AddOutcome(e: Event, a: Team, b: Team, allowRematch: bool)
    ensures var (after, out) := AddStep(e, a, b, allowRematch);
            var open, played := exists f :: f in e.rows && Between(f, a, b) && ToPlay(f),
                                exists f :: f in e.rows && Between(f, a, b) && WithResult(f);
            var pair := a != b && a in e.players && b in e.players;
            && (out == BadRequest <==> !pair)
            && (out.Duplicate? <==> pair && (open || (played && !allowRematch)))
            && (out.Duplicate? ==> (out.rematchable <==> !open))
            && (out.Duplicate? ==> exists f :: Newest(e.rows, a, b, if open then ToPlay else WithResult, f)
                                               && f.no == out.no && f.status == out.status)
            && (out.Created? <==> pair && !open && (!played || allowRematch))
            && (out.Created? ==> after == Event(e.players, e.rows + [Fixture(e.next, out.no, a, b, Pending)], e.next + 1)
                                 && (out.rematchOf.Some? <==> played))
            && (!out.Created? ==> after == e)
  {
    RulingOf(e.rows, a, b, allowRematch);
    var dups := Duplicates(e.rows, a, b);
    DuplicatesAre(e.rows, a, b);
    if f :| f in e.rows && Between(f, a, b) && WithResult(f) {
      BetweenIs(f, a, b);
      assert f in dups;
    }
  }

  /** The number of a new fixture: one more than the highest so far. */
  lemma {:induction false} NextNumber(rows: seq<Fixture>)
    ensures forall f :: f in rows ==> f.no < MaxNo(rows) + 1
    ensures MaxNo(rows) > 0 ==> exists f :: f in rows && f.no == MaxNo(rows)
  {
    if rows != [] {
      var front, last := rows[..|rows| - 1], rows[|rows| - 1];
      NextNumber(front);
      assert rows == front + [last];
      if last.no > MaxNo(front) { assert last in rows; }
    }
  }

  lemma CreatedNumber(e: Event, a: Team, b: Team, allowRematch: bool)
    requires AddStep(e, a, b, allowRematch).1.Created?
    ensures var no := AddStep(e, a, b, allowRematch).1.no;
            && (forall f :: f in e.rows ==> f.no < no)
            && (no == 1 || exists f :: f in e.rows && f.no + 1 == no)
  {
    NextNumber(e.rows);
  }

  lemma IdsDiffer(e: Event, i: nat, j: nat)
    requires Tidy(e) && i < |e.rows| && j < |e.rows|
    ensures i != j ==> e.rows[i].id != e.rows[j].id
  {
    if i < j { assert TwoDiffer(e.rows[i], e.rows[j]); }
    if j < i { assert TwoDiffer(e.rows[j], e.rows[i]); }
  }

  lemma RowById(e: Event, id: nat)
    requires Tidy(e)
    ensures RowOf(e.rows, id).None? <==> forall f :: f in e.rows ==> f.id != id
    ensures RowOf(e.rows, id).Some? ==>
              var d := RowOf(e.rows, id).value; e.rows[d] in e.rows && forall f :: f in e.rows && f.id == id ==> f == e.rows[d]
  {
    var row := RowOf(e.rows, id);
    if row.Some? {
      forall f | f in e.rows && f.id == id
        ensures f == e.rows[row.value]
      {
        var i :| 0 <= i < |e.rows| && e.rows[i] == f;
        IdsDiffer(e, i, row.value);
      }
    }
  }

  /** All rows but that of the id, in their order. */
  ghost predicate RowsWithout(rows: seq<Fixture>, after: seq<Fixture>, id: nat) {
    && |after| == |rows| - 1
    && (forall f :: f in after <==> f in rows && f.id != id)
    && (forall i, j :: 0 <= i < j < |after| ==> ComesBefore(rows, after[i], after[j]))
  }

  ghost predicate ComesBefore(rows: seq<Fixture>, f: Fixture, g: Fixture) {
    exists x, y :: 0 <= x < y < |rows| && rows[x] == f && rows[y] == g
  }

  /** Deleting a fixture: the one with the id goes if it is pending, is refused if it is not,
      and every other stays where it was. */
  lemma DeleteOutcome(e: Event, id: nat)
    requires Tidy(e)
    ensures var (after, out) := DeleteStep(e, id);
            && (out == NotFound <==> forall f :: f in e.rows ==> f.id != id)
            && (out == BadRequest <==> exists f :: f in e.rows && f.id == id && f.status != Pending)
            && (out == Deleted <==> exists f :: f in e.rows && f.id == id && f.status == Pending)
            && (out != Deleted ==> after == e)
            && (out == Deleted ==> after.players == e.players && after.next == e.next && RowsWithout(e.rows, after.rows, id))
  {
    RowById(e, id);
    if RowOf(e.rows, id).Some? { DeletedRows(e, RowOf(e.rows, id).value); }
  }

  function Shifted(d: nat, i: nat): nat {
    if i < d then i else i + 1
  }

  lemma RemainingRow(e: Event, d: nat, i: nat)
    requires Tidy(e) && d < |e.rows| && i < |e.rows| - 1
    ensures (e.rows[..d] + e.rows[d + 1..])[i] == e.rows[Shifted(d, i)] && e.rows[Shifted(d, i)].id != e.rows[d].id
  {
    IdsDiffer(e, Shifted(d, i), d);
  }

  lemma RemainingMembers(e: Event, d: nat, f: Fixture)
    requires Tidy(e) && d < |e.rows|
    ensures f in e.rows[..d] + e.rows[d + 1..] <==> f in e.rows && f.id != e.rows[d].id
  {
    var rows := e.rows[..d] + e.rows[d + 1..];
    if f in rows {
      var i :| 0 <= i < |rows| && rows[i] == f;
      RemainingRow(e, d, i);
    }
    if f in e.rows && f.id != e.rows[d].id {
      var x :| 0 <= x < |e.rows| && e.rows[x] == f;
      assert rows[if x < d then x else x - 1] == f;
    }
  }

  lemma DeletedRows(e: Event, d: nat)
    requires Tidy(e) && d < |e.rows|
    ensures RowsWithout(e.rows, e.rows[..d] + e.rows[d + 1..], e.rows[d].id)
  {
    var rows := e.rows[..d] + e.rows[d + 1..];
    forall f
      ensures f in rows <==> f in e.rows && f.id != e.rows[d].id
    {
      RemainingMembers(e, d, f);
    }
    forall i: nat, j: nat | i < j < |rows|
      ensures ComesBefore(e.rows, rows[i], rows[j])
    {
      RemainingRow(e, d, i);
      RemainingRow(e, d, j);
      assert Shifted(d, i) < Shifted(d, j);
    }
  }

  /** Generating keeps what there is and adds only pending fixtures, numbered on, for pairs
      without a fixture that stands. */
  ghost predicate OnlyAdded(e: Event, after: Event, no: nat) {
    && after.players == e.players && |after.rows| >= |e.rows| && after.rows[..|e.rows|] == e.rows
    && after.next == e.next + |after.rows| - |e.rows| && MaxNo(after.rows) == no + |after.rows| - |e.rows|
    && forall k :: |e.rows| <= k < |after.rows| ==>
         && after.rows[k].id == e.next + k - |e.rows| && after.rows[k].no == no + 1 + k - |e.rows|
         && after.rows[k].status == Pending
         && forall f :: f in e.rows && f.status !in {Voided, Bye} ==> !Between(f, after.rows[k].team1, after.rows[k].team2)
  }

  lemma AppendOnlyAdds(e: Event, mid: Event, no: nat, a: Team, b: Team)
    requires OnlyAdded(e, mid, no) && Key(a, b) !in KeysOf(e.rows)
    ensures OnlyAdded(e, Append(mid, a, b), no)
  {
    var after := Append(mid, a, b);
    assert after.rows[..|mid.rows|] == mid.rows;
    forall f | f in e.rows && f.status !in {Voided, Bye}
      ensures !Between(f, a, b)
    {
      BetweenIs(f, a, b);
      assert KeyOf(f) in KeysOf(e.rows);
    }
  }

  lemma {:induction false} FillingOnlyAdds(e: Event, ps: seq<(Team, Team)>)
    ensures OnlyAdded(e, Filled(e, KeysOf(e.rows), ps), MaxNo(e.rows))
  {
    if ps != [] {
      var n := |ps| - 1;
      FillingOnlyAdds(e, ps[..n]);
      if Key(ps[n].0, ps[n].1) !in KeysOf(e.rows) {
        AppendOnlyAdds(e, Filled(e, KeysOf(e.rows), ps[..n]), MaxNo(e.rows), ps[n].0, ps[n].1);
      }
    }
  }

  /** Afterwards every two participants have a fixture that is neither cancelled nor a bye. */
  lemma GenerateEffect(e: Event)
    requires Tidy(e) && |e.players| >= 2
    ensures var after := GenerateStep(e).0;
            && OnlyAdded(e, after, MaxNo(e.rows))
            && forall a, b :: a in e.players && b in e.players && a != b ==>
                 exists f :: f in after.rows && Between(f, a, b) && f.status !in {Voided, Bye}
  {
    GenerateIs(e);
    GenerateCompletes(e);
    FillingOnlyAdds(e, Outer(e.players, |e.players|));
    var after := GenerateStep(e).0;
    forall a, b | a in e.players && b in e.players && a != b
      ensures exists f :: f in after.rows && Between(f, a, b) && f.status !in {Voided, Bye}
    {
      assert Key(a, b) in KeysOf(after.rows);
      var f :| f in after.rows && Stands(f.status) && KeyOf(f) == Key(a, b);
      BetweenIs(f, a, b);
    }
  }
}
