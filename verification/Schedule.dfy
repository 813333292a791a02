/** The court schedule: conflicts, slots and stamps. */
module Schedule {
  import opened Seqs
  import opened Wrappers
  import opened Scoring
  import Bracket

  // schedule/repository.go: slot writes checked for court, player and rest conflicts, and
  // the stamps mirrored on matches.

  type Team = Bracket.Team

  /** Thirty minutes, in the database's microseconds. */
  const REST_BUFFER: int := 30 * 60 * 1_000_000

  datatype Slot = Slot(court: nat, game: Option<nat>, starts: int, ends: int)

  datatype Stamp = Stamp(at: int, court: nat)

  /** A match as the schedule sees it; teams are the known players of its two slots. */
  datatype Match = Match(status: Status, teams: set<Team>, stamp: Option<Stamp>)

  datatype Board = Board(slots: map<nat, Slot>, matches: seq<Match>, courts: set<nat>, next: nat)

  /** A request to create (no id) or update a slot. */
  datatype Write = Write(id: Option<nat>, slot: Slot, overrideRest: bool)

  /** The slots a write clashes with: on its court, over a player, or short of rest. */
  datatype Conflicts = Conflicts(court: set<nat>, players: set<nat>, rest: set<nat>)

  datatype Outcome =
    | Saved(id: nat)
    | Removed
    | NotFound
    | BadRange
    | BadReference
    | Clash(conflicts: Conflicts)

  // Conflicts

  /** Half-open ranges: back-to-back slots do not overlap. */
  predicate Overlap(a: Slot, b: Slot) {
    a.starts < b.ends && b.starts < a.ends
  }

  function Widened(s: Slot): Slot {
    s.(starts := s.starts - REST_BUFFER, ends := s.ends + REST_BUFFER)
  }

  /** At least the rest buffer lies between the two. */
  predicate Apart(a: Slot, b: Slot) {
    !Overlap(a, Widened(b))
  }

  /** A decided match no longer occupies its players. */
  predicate Undecided(b: Board, game: Option<nat>) {
    game.Some? && game.value < |b.matches| && !Decided(b.matches[game.value].status)
  }

  predicate SharePlayer(b: Board, x: Option<nat>, y: Option<nat>) {
    && x.Some? && y.Some? && x.value < |b.matches| && y.value < |b.matches|
    && b.matches[x.value].teams * b.matches[y.value].teams != {}
  }

  predicate OtherSlot(b: Board, w: Write, id: nat) {
    id in b.slots && w.id != Some(id)
  }

  /** The existing slot takes the same court at the same time. */
  predicate BlocksCourt(b: Board, w: Write, id: nat) {
    OtherSlot(b, w, id) && b.slots[id].court == w.slot.court && Overlap(b.slots[id], w.slot)
  }

  /** The existing slot needs one of the players within the rest-widened window. */
  predicate NearPlayer(b: Board, w: Write, id: nat) {
    && OtherSlot(b, w, id) && Undecided(b, b.slots[id].game) && SharePlayer(b, b.slots[id].game, w.slot.game)
    && Overlap(b.slots[id], Widened(w.slot))
  }

  predicate TakesPlayer(b: Board, w: Write, id: nat) {
    NearPlayer(b, w, id) && Overlap(b.slots[id], w.slot)
  }

  predicate ShortRest(b: Board, w: Write, id: nat) {
    NearPlayer(b, w, id) && !Overlap(b.slots[id], w.slot)
  }

  function ConflictsOf(b: Board, w: Write): (r: Conflicts)
    ensures forall id :: id in r.court <==> BlocksCourt(b, w, id)
    ensures forall id :: id in r.players <==> TakesPlayer(b, w, id)
    ensures forall id :: id in r.rest <==> ShortRest(b, w, id)
  {
    Conflicts(set id | id in b.slots && BlocksCourt(b, w, id), set id | id in b.slots && TakesPlayer(b, w, id),
              set id | id in b.slots && ShortRest(b, w, id))
  }

  /** Slot ids, each once, by start time. */
  ghost predicate ByStart(slots: map<nat, Slot>, ids: seq<nat>) {
    && NoRepeats(ids)
    && (forall i :: 0 <= i < |ids| ==> ids[i] in slots)
    && (forall i, j :: 0 <= i < j < |ids| ==> slots[ids[i]].starts <= slots[ids[j]].starts)
  }

  /** ORDER BY starts_at, one row at a time. */
  function Enter(slots: map<nat, Slot>, ids: seq<nat>, id: nat): seq<nat>
    requires id in slots && forall i :: 0 <= i < |ids| ==> ids[i] in slots
  {
    if ids == [] then [id]
    else
      var n := |ids| - 1;
      if slots[ids[n]].starts <= slots[id].starts then ids + [id] else Enter(slots, ids[..n], id) + [ids[n]]
  }

  lemma {:induction false} EntersInOrder(slots: map<nat, Slot>, ids: seq<nat>, id: nat)
    requires ByStart(slots, ids) && id in slots && id !in ids
    ensures ByStart(slots, Enter(slots, ids, id))
    ensures forall x :: x in Enter(slots, ids, id) <==> x == id || x in ids
  {
    if ids != [] {
      var n := |ids| - 1;
      assert ids == ids[..n] + [ids[n]];
      if slots[ids[n]].starts > slots[id].starts {
        EntersInOrder(slots, ids[..n], id);
        LastInOrder(slots, Enter(slots, ids[..n], id), ids[..n], id, ids[n]);
      } else {
        LastInOrder(slots, ids, ids, ids[n], id);
      }
    }
  }

  /** A row that starts no earlier than the others goes last. */
  lemma LastInOrder(slots: map<nat, Slot>, front: seq<nat>, ids: seq<nat>, id: nat, last: nat)
    requires ByStart(slots, front) && last in slots && last !in front
    requires forall x :: x in front <==> x == id || x in ids
    requires forall x :: x in front ==> slots[x].starts <= slots[last].starts
    ensures ByStart(slots, front + [last])
    ensures forall x :: x in front + [last] <==> x == last || x == id || x in ids
  {
    assert forall i :: 0 <= i < |front| ==> front[i] in front;
  }

  function Ids(ids: seq<nat>): (r: set<nat>)
    ensures forall id :: id in r <==> id in ids
    ensures |ids| > 0 <==> r != {}
  {
    var r := set id | id in ids;
    assert ids != [] ==> ids[0] in r;
    r
  }

  /** The lists of a conflict report: the court's slots and then the players', each by start
      time, and the slots too near. */
  ghost predicate Reports(b: Board, c: Conflicts, hard: seq<nat>, rest: seq<nat>) {
    && (exists n :: 0 <= n <= |hard| && Lists(b, hard[..n], c.court) && Lists(b, hard[n..], c.players))
    && Lists(b, rest, c.rest)
  }

  ghost predicate Lists(b: Board, ids: seq<nat>, found: set<nat>) {
    ByStart(b.slots, ids) && forall x :: x in ids <==> x in found
  }

  lemma ReportOf(b: Board, court: seq<nat>, players: seq<nat>, rest: seq<nat>)
    requires ByStart(b.slots, court) && ByStart(b.slots, players) && ByStart(b.slots, rest)
    ensures Reports(b, Conflicts(Ids(court), Ids(players), Ids(rest)), court + players, rest)
  {
    var hard := court + players;
    assert hard[..|court|] == court && hard[|court|..] == players;
    assert Lists(b, hard[..|court|], Ids(court)) && Lists(b, hard[|court|..], Ids(players));
  }

  lemma FoundAll(b: Board, w: Write, c: Conflicts)
    requires forall id :: id in c.court <==> BlocksCourt(b, w, id)
    requires forall id :: id in c.players <==> TakesPlayer(b, w, id)
    requires forall id :: id in c.rest <==> ShortRest(b, w, id)
    ensures c == ConflictsOf(b, w)
  {
    var d := ConflictsOf(b, w);
    assert c.court == d.court && c.players == d.players && c.rest == d.rest;
  }

  predicate Hard(c: Conflicts) {
    c.court != {} || c.players != {}
  }

  predicate Rejected(b: Board, w: Write) {
    var c := ConflictsOf(b, w);
    Hard(c) || (c.rest != {} && !w.overrideRest)
  }

  // Writing and deleting

  function Released(m: Match): Match {
    m.(stamp := None, status := if m.status == Scheduled then Pending else m.status)
  }

  function Booked(m: Match, s: Slot): Match {
    m.(stamp := Some(Stamp(s.starts, s.court)), status := if m.status == Pending then Scheduled else m.status)
  }

  function Release(ms: seq<Match>, game: Option<nat>): (r: seq<Match>)
    ensures |r| == |ms|
  {
    if game.Some? && game.value < |ms| then ms[game.value := Released(ms[game.value])] else ms
  }

  function Book(ms: seq<Match>, s: Slot): (r: seq<Match>)
    ensures |r| == |ms|
  {
    if s.game.Some? && s.game.value < |ms| then ms[s.game.value := Booked(ms[s.game.value], s)] else ms
  }

  /** The match the written slot held before. */
  function Previous(b: Board, w: Write): Option<nat> {
    if w.id.Some? && w.id.value in b.slots then b.slots[w.id.value].game else None
  }

  predicate KnownReferences(b: Board, s: Slot) {
    s.court in b.courts && (s.game.Some? ==> s.game.value < |b.matches|)
  }

  function Target(b: Board, w: Write): nat {
    if w.id.Some? then w.id.value else b.next
  }

  function AfterWrite(b: Board, w: Write): Board {
    var prev := Previous(b, w);
    var ms := if prev != w.slot.game then Release(b.matches, prev) else b.matches;
    b.(slots := b.slots[Target(b, w) := w.slot], matches := Book(ms, w.slot),
       next := if w.id.Some? then b.next else b.next + 1)
  }

  function WriteStep(b: Board, w: Write): (Board, Outcome) {
    if w.id.Some? && w.id.value !in b.slots then (b, NotFound)
    else if w.slot.ends <= w.slot.starts then (b, BadRange)
    else if Rejected(b, w) then (b, Clash(ConflictsOf(b, w)))
    else if !KnownReferences(b, w.slot) then (b, BadReference)
    else (AfterWrite(b, w), Saved(Target(b, w)))
  }

  predicate Referenced(b: Board, m: nat) {
    exists id :: id in b.slots && b.slots[id].game == Some(m)
  }

  function AfterDelete(b: Board, id: nat): Board
    requires id in b.slots
  {
    var left := b.(slots := b.slots - {id});
    var game := b.slots[id].game;
    if game.Some? && !Referenced(left, game.value) then left.(matches := Release(b.matches, game)) else left
  }

  function DeleteStep(b: Board, id: nat): (Board, Outcome) {
    if id !in b.slots then (b, NotFound) else (AfterDelete(b, id), Removed)
  }

  /** The tables schedule_slots and matches, changed one transaction at a time. */
  class Repository {
    var slots: map<nat, Slot>
    var matches: seq<Match>
    var courts: set<nat>
    var next: nat

    constructor (games: seq<Match>, grounds: set<nat>)
      ensures Contents() == Board(map[], games, grounds, 0)
    {
      slots, matches, courts, next := map[], games, grounds, 0;
    }

    ghost function Contents(): Board
      reads this
    {
      Board(slots, matches, courts, next)
    }

    method ValidateSlotWrite(w: Write) returns (c: Conflicts, refused: bool, hard: seq<nat>, rest: seq<nat>)
      ensures c == ConflictsOf(Contents(), w) && (refused <==> Rejected(Contents(), w))
      ensures Reports(Contents(), c, hard, rest)
    {
      var court := ClassifyCourt(w);
      var players := [];
      rest := [];
      if w.slot.game.Some? {
        players, rest := ClassifyPlayers(w);
      }
      hard := court + players;
      c := Conflicts(Ids(court), Ids(players), Ids(rest));
      refused := |hard| > 0 || (|rest| > 0 && !w.overrideRest);
      FoundAll(Contents(), w, c);
      ReportOf(Contents(), court, players, rest);
    }

    /** The slots that overlap on the court. */
    method ClassifyCourt(w: Write) returns (court: seq<nat>)
      ensures ByStart(slots, court)
      ensures forall id :: id in court <==> BlocksCourt(Contents(), w, id)
    {
      ghost var b := Contents();
      court := [];
      var todo := slots.Keys;
      while todo != {}
        invariant todo <= slots.Keys && ByStart(slots, court)
        invariant forall id :: id in court <==> BlocksCourt(b, w, id) && id !in todo
        decreases |todo|
      {
        var id :| id in todo;
        if w.id != Some(id) && slots[id].court == w.slot.court && Overlap(slots[id], w.slot) {
          EntersInOrder(slots, court, id);
          court := Enter(slots, court, id);
        }
        todo := todo - {id};
      }
    }

    /** Splits the slots near one of the players into overlaps and short rests. */
    method ClassifyPlayers(w: Write) returns (players: seq<nat>, rest: seq<nat>)
      ensures ByStart(slots, players) && ByStart(slots, rest)
      ensures forall id :: id in players <==> TakesPlayer(Contents(), w, id)
      ensures forall id :: id in rest <==> ShortRest(Contents(), w, id)
    {
      ghost var b := Contents();
      players, rest := [], [];
      var todo := slots.Keys;
      while todo != {}
        invariant todo <= slots.Keys && ByStart(slots, players) && ByStart(slots, rest)
        invariant forall id :: id in players <==> TakesPlayer(b, w, id) && id !in todo
        invariant forall id :: id in rest <==> ShortRest(b, w, id) && id !in todo
        decreases |todo|
      {
        var id :| id in todo;
        var near := PlayerNear(w, id);
        if near {
          if slots[id].starts < w.slot.ends && w.slot.starts < slots[id].ends {
            EntersInOrder(slots, players, id);
            players := Enter(slots, players, id);
          } else {
            EntersInOrder(slots, rest, id);
            rest := Enter(slots, rest, id);
          }
        }
        todo := todo - {id};
      }
    }

    method PlayerNear(w: Write, id: nat) returns (near: bool)
      requires id in slots
      ensures near <==> NearPlayer(Contents(), w, id)
    {
      var game := slots[id].game;
      if w.id == Some(id) || game.None? || w.slot.game.None? {
        return false;
      }
      if game.value >= |matches| || w.slot.game.value >= |matches| || Decided(matches[game.value].status) {
        return false;
      }
      near := matches[game.value].teams * matches[w.slot.game.value].teams != {}
        && Overlap(slots[id], Widened(w.slot));
    }

    method WriteSlot(w: Write) returns (out: Outcome, hard: seq<nat>, rest: seq<nat>)
      modifies this
      ensures (Contents(), out) == WriteStep(old(Contents()), w)
      ensures if out.Clash? then Reports(Contents(), out.conflicts, hard, rest) else hard == rest == []
    {
      hard, rest := [], [];
      var prev: Option<nat> := None;
      if w.id.Some? {
        if w.id.value !in slots {
          return NotFound, [], [];
        }
        prev := slots[w.id.value].game;
      }
      if w.slot.ends <= w.slot.starts {
        return BadRange, [], [];
      }
      var conflicts, refused, clashes, near := ValidateSlotWrite(w);
      if refused {
        return Clash(conflicts), clashes, near;
      }
      if w.slot.court !in courts || (w.slot.game.Some? && w.slot.game.value >= |matches|) {
        return BadReference, [], [];
      }
      var id;
      if w.id.None? {
        id, next := next, next + 1;
      } else {
        id := w.id.value;
      }
      slots := slots[id := w.slot];
      if prev.Some? && (w.slot.game.None? || prev.value != w.slot.game.value) && prev.value < |matches| {
        matches := matches[prev.value := Released(matches[prev.value])];
      }
      if w.slot.game.Some? {
        matches := matches[w.slot.game.value := Booked(matches[w.slot.game.value], w.slot)];
      }
      out := Saved(id);
    }

    method DeleteSlot(id: nat) returns (out: Outcome)
      modifies this
      ensures (Contents(), out) == DeleteStep(old(Contents()), id)
    {
      if id !in slots {
        return NotFound;
      }
      var game := slots[id].game;
      slots := slots - {id};
      if game.Some? && game.value < |matches| {
        var elsewhere := exists other :: other in slots && slots[other].game == game;
        if !elsewhere {
          matches := matches[game.value := Released(matches[game.value])];
        }
      }
      out := Removed;
    }
  }

  // Whole runs

  /** A slot write, a slot deletion, or the match itself moving on. */
  datatype Request = Put(w: Write) | Remove(id: nat) | Play(m: nat, to: Status)

  /** When a slot was last written, and whether that write waived the rest buffer. */
  datatype Writing = Writing(turn: nat, waived: bool)

  datatype Journal = Journal(board: Board, written: map<nat, Writing>, turn: nat)

  /** A score or a status change, which may also take a decided match back. */
  function Played(b: Board, m: nat, to: Status): Board {
    if m < |b.matches|
    then b.(matches := b.matches[m := b.matches[m].(status := to)]) else b
  }

  function Step(j: Journal, q: Request): Journal {
    var now := j.(turn := j.turn + 1);
    match q
    case Put(w) =>
      var (b, out) := WriteStep(j.board, w);
      if out.Saved? then now.(board := b, written := j.written[out.id := Writing(j.turn, w.overrideRest)])
      else now.(board := b)
    case Remove(id) => now.(board := DeleteStep(j.board, id).0)
    case Play(m, to) => now.(board := Played(j.board, m, to))
  }

  function Run(j: Journal, qs: seq<Request>): Journal {
    if qs == [] then j else Step(Run(j, qs[..|qs| - 1]), qs[|qs| - 1])
  }

  predicate SlotOk(j: Journal, id: nat)
    requires id in j.board.slots
  {
    var s := j.board.slots[id];
    && s.starts < s.ends && KnownReferences(j.board, s) && id < j.board.next
    && id in j.written && j.written[id].turn < j.turn
  }

  /** Two undecided matches that need the same player. */
  predicate Contend(b: Board, x: Slot, y: Slot) {
    Undecided(b, x.game) && Undecided(b, y.game) && SharePlayer(b, x.game, y.game)
  }

  /** y, written after x, respects x. */
  predicate Respects(j: Journal, x: nat, y: nat)
    requires x in j.board.slots && y in j.board.slots && y in j.written
  {
    var s, t := j.board.slots[x], j.board.slots[y];
    && (s.court == t.court ==> !Overlap(s, t))
    && (Contend(j.board, s, t) ==> !Overlap(s, t) && (Apart(s, t) || j.written[y].waived))
  }

  /** Every slot is well formed and written in its own turn. */
  ghost predicate Filed(j: Journal) {
    && (forall id :: id in j.board.slots ==> SlotOk(j, id))
    && (forall x, y :: x in j.board.slots && y in j.board.slots && x != y ==> j.written[x].turn != j.written[y].turn)
  }

  ghost predicate Orderly(j: Journal) {
    && Filed(j)
    && (forall x, y :: x in j.board.slots && y in j.board.slots && j.written[x].turn < j.written[y].turn ==> Respects(j, x, y))
  }

  ghost predicate StampsReferenced(b: Board) {
    forall m :: 0 <= m < |b.matches| && b.matches[m].stamp.Some? ==> Referenced(b, m)
  }

  /** Moving a match on, or stamping it, frees players but never claims new ones. */
  ghost predicate MatchesMovedOn(b: Board, c: Board) {
    && |b.matches| == |c.matches|
    && forall m :: 0 <= m < |b.matches| ==>
         b.matches[m].teams == c.matches[m].teams && (Decided(b.matches[m].status) ==> Decided(c.matches[m].status))
  }

  lemma StillRespects(j: Journal, k: Journal, x: nat, y: nat)
    requires x in j.board.slots && y in j.board.slots && y in j.written && Respects(j, x, y)
    requires x in k.board.slots && y in k.board.slots && y in k.written
    requires j.board.slots[x] == k.board.slots[x] && j.board.slots[y] == k.board.slots[y]
    requires j.written[y] == k.written[y] && MatchesMovedOn(j.board, k.board)
    ensures Respects(k, x, y)
  {
  }

  /** An accepted write respects every other slot. */
  lemma NewRespects(j: Journal, w: Write, x: nat)
    requires Orderly(j) && WriteStep(j.board, w).1.Saved?
    requires x in j.board.slots && w.id != Some(x)
    ensures var k := Step(j, Put(w)); var id := Target(j.board, w);
            x in k.board.slots && id in k.board.slots && id in k.written && Respects(k, x, id)
  {
    var b := j.board;
    assert SlotOk(j, x);
    assert x !in ConflictsOf(b, w).court && x !in ConflictsOf(b, w).players;
    assert x in ConflictsOf(b, w).rest ==> w.overrideRest;
    WriteMovesOn(b, w);
  }

  lemma WriteMovesOn(b: Board, w: Write)
    ensures MatchesMovedOn(b, AfterWrite(b, w))
  {
  }

  lemma StepKeepsFiled(j: Journal, q: Request)
    requires Filed(j)
    ensures Filed(Step(j, q))
  {
    match q
    case Put(w) => if WriteStep(j.board, w).1.Saved? { WriteKeepsFiled(j, w); } else { SameSlotsFiled(j, q); }
    case Remove(id) => SameSlotsFiled(j, q);
    case Play(m, to) => SameSlotsFiled(j, q);
  }

  /** Nothing is written; slots may go. */
  lemma SameSlotsFiled(j: Journal, q: Request)
    requires Filed(j) && Step(j, q).written == j.written && Step(j, q).board.next == j.board.next
    requires forall id :: id in Step(j, q).board.slots ==>
               id in j.board.slots && Step(j, q).board.slots[id] == j.board.slots[id]
    ensures Filed(Step(j, q))
  {
    forall x | x in Step(j, q).board.slots
      ensures SlotOk(Step(j, q), x)
    {
      assert SlotOk(j, x);
    }
  }

  lemma WriteKeepsFiled(j: Journal, w: Write)
    requires Filed(j) && WriteStep(j.board, w).1.Saved?
    ensures Filed(Step(j, Put(w)))
  {
    var k, id := Step(j, Put(w)), Target(j.board, w);
    forall x | x in k.board.slots
      ensures SlotOk(k, x) && (x != id ==> k.written[x].turn < k.written[id].turn)
    {
      if x != id { assert SlotOk(j, x); }
    }
  }

  lemma {:induction false} RunKeepsFiled(j: Journal, qs: seq<Request>)
    requires Filed(j)
    ensures Filed(Run(j, qs))
  {
    if qs != [] {
      RunKeepsFiled(j, qs[..|qs| - 1]);
      StepKeepsFiled(Run(j, qs[..|qs| - 1]), qs[|qs| - 1]);
    }
  }

  lemma WriteKeepsOrder(j: Journal, w: Write)
    requires Orderly(j) && WriteStep(j.board, w).1.Saved?
    ensures Orderly(Step(j, Put(w)))
  {
    var k, id := Step(j, Put(w)), Target(j.board, w);
    StepKeepsFiled(j, Put(w));
    WriteMovesOn(j.board, w);
    forall x | x in k.board.slots
      ensures x != id ==> k.written[x].turn < k.written[id].turn
    {
      if x != id { assert SlotOk(j, x); }
    }
    forall x, y | x in k.board.slots && y in k.board.slots && k.written[x].turn < k.written[y].turn
      ensures Respects(k, x, y)
    {
      if y == id { NewRespects(j, w, x); } else { StillRespects(j, k, x, y); }
    }
  }

  lemma DeleteKeepsOrder(j: Journal, id: nat)
    requires Orderly(j)
    ensures Orderly(Step(j, Remove(id)))
  {
    var k := Step(j, Remove(id));
    StepKeepsFiled(j, Remove(id));
    assert MatchesMovedOn(j.board, k.board);
    forall x, y | x in k.board.slots && y in k.board.slots && k.written[x].turn < k.written[y].turn
      ensures Respects(k, x, y)
    {
      StillRespects(j, k, x, y);
    }
  }

  lemma IdleKeepsOrder(j: Journal, q: Request)
    requires Orderly(j) && Step(j, q) == j.(turn := j.turn + 1)
    ensures Orderly(Step(j, q))
  {
    var k := Step(j, q);
    StepKeepsFiled(j, q);
    forall x, y | x in k.board.slots && y in k.board.slots && k.written[x].turn < k.written[y].turn
      ensures Respects(k, x, y)
    {
      assert Respects(j, x, y);
    }
  }

  // Taking a result back

  predicate Reopens(b: Board, m: nat, to: Status) {
    m < |b.matches| && Decided(b.matches[m].status) && !Decided(to)
  }

  /** Two slots whose matches need a common player once m is undecided again. */
  predicate WouldContend(b: Board, m: nat, x: Slot, y: Slot) {
    && (x.game == Some(m) || y.game == Some(m))
    && (x.game == Some(m) || Undecided(b, x.game))
    && (y.game == Some(m) || Undecided(b, y.game))
    && SharePlayer(b, x.game, y.game)
  }

  /** The match can be taken back without a clash: its players have not been booked into
      its slots' time, or too near, while it was decided. */
  ghost predicate ReopenFits(j: Journal, m: nat)
    requires Filed(j)
  {
    forall x, y {:trigger WouldContend(j.board, m, j.board.slots[x], j.board.slots[y])} ::
      x in j.board.slots && y in j.board.slots && j.written[x].turn < j.written[y].turn
      && WouldContend(j.board, m, j.board.slots[x], j.board.slots[y]) ==>
        && !Overlap(j.board.slots[x], j.board.slots[y])
        && (Apart(j.board.slots[x], j.board.slots[y]) || j.written[y].waived)
  }

  /** The request takes no result back, or one that still fits. */
  ghost predicate Fits(j: Journal, q: Request)
    requires Filed(j)
  {
    q.Play? && Reopens(j.board, q.m, q.to) ==> ReopenFits(j, q.m)
  }

  /** The pairs of slots that contend after the status change. */
  lemma ContendAfter(b: Board, m: nat, to: Status, x: Slot, y: Slot)
    ensures var c := Played(b, m, to);
            Contend(c, x, y) ==> Contend(b, x, y) || (Reopens(b, m, to) && WouldContend(b, m, x, y))
    ensures Reopens(b, m, to) && WouldContend(b, m, x, y) ==> Contend(Played(b, m, to), x, y)
  {
  }

  lemma PlayKeepsOrder(j: Journal, m: nat, to: Status)
    requires Orderly(j) && Fits(j, Play(m, to))
    ensures Orderly(Step(j, Play(m, to)))
  {
    var k := Step(j, Play(m, to));
    StepKeepsFiled(j, Play(m, to));
    forall x, y | x in k.board.slots && y in k.board.slots && k.written[x].turn < k.written[y].turn
      ensures Respects(k, x, y)
    {
      assert Respects(j, x, y);
      ContendAfter(j.board, m, to, j.board.slots[x], j.board.slots[y]);
    }
  }

  lemma OrderlyPlayFits(j: Journal, m: nat, to: Status)
    requires Filed(j) && Orderly(Step(j, Play(m, to)))
    ensures Fits(j, Play(m, to))
  {
    var k := Step(j, Play(m, to));
    if Reopens(j.board, m, to) {
      forall x, y | x in j.board.slots && y in j.board.slots && j.written[x].turn < j.written[y].turn
                    && WouldContend(j.board, m, j.board.slots[x], j.board.slots[y])
        ensures !Overlap(j.board.slots[x], j.board.slots[y])
        ensures Apart(j.board.slots[x], j.board.slots[y]) || j.written[y].waived
      {
        assert Respects(k, x, y);
        ContendAfter(j.board, m, to, j.board.slots[x], j.board.slots[y]);
      }
    }
  }

  /** Writes and deletions always keep the order, and so does every status change except
      taking back a result that no longer fits. */
  lemma StepKeepsOrderIff(j: Journal, q: Request)
    requires Orderly(j)
    ensures Orderly(Step(j, q)) <==> Fits(j, q)
  {
    match q
    case Put(w) => if WriteStep(j.board, w).1.Saved? { WriteKeepsOrder(j, w); } else { IdleKeepsOrder(j, q); }
    case Remove(id) => DeleteKeepsOrder(j, id);
    case Play(m, to) =>
      if Fits(j, q) { PlayKeepsOrder(j, m, to); }
      if Orderly(Step(j, q)) { OrderlyPlayFits(j, m, to); }
  }

  /** Each result taken back in the run fitted at its time. */
  ghost predicate FittingRun(j: Journal, qs: seq<Request>)
    requires Filed(j)
  {
    forall i :: 0 <= i < |qs| ==> FitsAt(j, qs, i)
  }

  ghost predicate FitsAt(j: Journal, qs: seq<Request>, i: nat)
    requires Filed(j) && i < |qs|
  {
    RunKeepsFiled(j, qs[..i]);
    Fits(Run(j, qs[..i]), qs[i])
  }

  lemma {:induction false} RunKeepsOrder(j: Journal, qs: seq<Request>)
    requires Orderly(j) && FittingRun(j, qs)
    ensures Orderly(Run(j, qs))
  {
    if qs != [] {
      var n := |qs| - 1;
      FittingPrefix(j, qs);
      RunKeepsOrder(j, qs[..n]);
      assert FitsAt(j, qs, n);
      StepKeepsOrderIff(Run(j, qs[..n]), qs[n]);
    }
  }

  lemma FittingPrefix(j: Journal, qs: seq<Request>)
    requires Filed(j) && qs != [] && FittingRun(j, qs)
    ensures FittingRun(j, qs[..|qs| - 1])
  {
    var front := qs[..|qs| - 1];
    forall i: nat {:trigger FitsAt(j, front, i)} | i < |front|
      ensures FitsAt(j, front, i)
    {
      assert FitsAt(j, qs, i);
      assert front[..i] == qs[..i];
    }
  }

  // What it means on the clock

  predicate Occupies(s: Slot, t: int) {
    s.starts <= t < s.ends
  }

  /** Two overlapping non-empty slots share an instant, and only those do. */
  lemma OverlapMeaning(a: Slot, b: Slot)
    requires a.starts < a.ends && b.starts < b.ends
    ensures Overlap(a, b) <==> exists t :: Occupies(a, t) && Occupies(b, t)
  {
    var t := if a.starts < b.starts then b.starts else a.starts;
    if Overlap(a, b) { assert Occupies(a, t) && Occupies(b, t); }
  }

  function Later(j: Journal, x: nat, y: nat): nat
    requires x in j.written && y in j.written
  {
    if j.written[x].turn < j.written[y].turn then y else x
  }

  /** An empty schedule. */
  function Opened(games: seq<Match>, grounds: set<nat>): Journal {
    Journal(Board(map[], games, grounds, 0), map[], 0)
  }

  /** On every run that takes back only results that still fit, no court and no player of an
      undecided match is booked twice at any instant, and such a player has thirty minutes between two slots unless the later
      written of them waived it. */
  lemma NoDoubleBooking(games: seq<Match>, grounds: set<nat>, qs: seq<Request>, x: nat, y: nat)
    requires FittingRun(Opened(games, grounds), qs)
    requires var k := Run(Opened(games, grounds), qs); x in k.board.slots && y in k.board.slots && x != y
    ensures var k := Run(Opened(games, grounds), qs); x in k.written && y in k.written
    ensures var k := Run(Opened(games, grounds), qs);
            var s, t := k.board.slots[x], k.board.slots[y];
            && (forall i {:trigger Occupies(s, i)} :: Occupies(s, i) && Occupies(t, i) ==>
                  s.court != t.court && !Contend(k.board, s, t))
            && (Contend(k.board, s, t) && !k.written[Later(k, x, y)].waived ==>
                  s.ends + REST_BUFFER <= t.starts || t.ends + REST_BUFFER <= s.starts)
  {
    RunKeepsOrder(Opened(games, grounds), qs);
    var k := Run(Opened(games, grounds), qs);
    assert SlotOk(k, x) && SlotOk(k, y);
    if k.written[x].turn < k.written[y].turn { assert Respects(k, x, y); } else { assert Respects(k, y, x); }
  }

  /** A write is refused outright exactly when at some instant its court is taken or
      one of its players is in another undecided match. */
  lemma HardMeansCollision(j: Journal, w: Write)
    requires Filed(j) && w.slot.starts < w.slot.ends
    ensures Hard(ConflictsOf(j.board, w)) <==>
            exists id, t :: OtherSlot(j.board, w, id) && Collides(j.board, w.slot, j.board.slots[id], t)
  {
    var b, c := j.board, ConflictsOf(j.board, w);
    if id :| id in c.court || id in c.players {
      assert SlotOk(j, id);
      OverlapMeaning(b.slots[id], w.slot);
      var t :| Occupies(b.slots[id], t) && Occupies(w.slot, t);
      assert OtherSlot(b, w, id) && Collides(b, w.slot, b.slots[id], t);
    } else {
      assert c.court == {} && c.players == {};
    }
    if id, t :| OtherSlot(b, w, id) && Collides(b, w.slot, b.slots[id], t) {
      assert SlotOk(j, id);
      OverlapMeaning(b.slots[id], w.slot);
      assert BlocksCourt(b, w, id) || TakesPlayer(b, w, id);
    }
  }

  predicate Collides(b: Board, s: Slot, other: Slot, t: int) {
    && Occupies(s, t) && Occupies(other, t)
    && (other.court == s.court || (Undecided(b, other.game) && SharePlayer(b, other.game, s.game)))
  }

  // The outcome of a write, by hand

  /** Another slot than the written one holds a match that is not over and has one of the
      written match's players. */
  predicate SharesPlayer(b: Board, w: Write, id: nat) {
    && id in b.slots && w.id != Some(id) && b.slots[id].game.Some? && w.slot.game.Some?
    && b.slots[id].game.value < |b.matches| && w.slot.game.value < |b.matches|
    && (var s := b.matches[b.slots[id].game.value].status; s == Pending || s == Scheduled || s == Live)
    && exists p :: p in b.matches[b.slots[id].game.value].teams && p in b.matches[w.slot.game.value].teams
  }

  /** At this instant both slots run, on one court or with a player in common. */
  predicate BothAt(b: Board, w: Write, id: nat, t: int) {
    && id in b.slots && w.id != Some(id)
    && b.slots[id].starts <= t < b.slots[id].ends && w.slot.starts <= t < w.slot.ends
    && (b.slots[id].court == w.slot.court || SharesPlayer(b, w, id))
  }

  /** Half an hour or more lies between the slots. */
  predicate Rested(s: Slot, t: Slot) {
    s.ends + 30 * 60 * 1_000_000 <= t.starts || t.ends + 30 * 60 * 1_000_000 <= s.starts
  }

  lemma SharingIs(b: Board, w: Write, id: nat)
    ensures SharesPlayer(b, w, id) <==>
              OtherSlot(b, w, id) && Undecided(b, b.slots[id].game) && SharePlayer(b, b.slots[id].game, w.slot.game)
  {
    if OtherSlot(b, w, id) && b.slots[id].game.Some? && w.slot.game.Some?
       && b.slots[id].game.value < |b.matches| && w.slot.game.value < |b.matches| {
      InCommon(b.matches[b.slots[id].game.value].teams, b.matches[w.slot.game.value].teams);
    }
  }

  lemma InCommon(a: set<Team>, b: set<Team>)
    ensures a * b != {} <==> exists p :: p in a && p in b
  {
    if p :| p in a && p in b { assert p in a * b; }
    if a * b != {} {
      var p :| p in a * b;
    }
  }

  lemma HardIs(b: Board, w: Write)
    requires w.slot.starts < w.slot.ends && forall id :: id in b.slots ==> b.slots[id].starts < b.slots[id].ends
    ensures Hard(ConflictsOf(b, w)) <==> exists id, t :: BothAt(b, w, id, t)
  {
    var c := ConflictsOf(b, w);
    if id :| id in c.court || id in c.players {
      SharingIs(b, w, id);
      OverlapMeaning(b.slots[id], w.slot);
      var t :| Occupies(b.slots[id], t) && Occupies(w.slot, t);
      assert BothAt(b, w, id, t);
    } else {
      assert c.court == {} && c.players == {};
    }
    if id, t :| BothAt(b, w, id, t) {
      SharingIs(b, w, id);
      assert id in c.court || id in c.players;
    }
  }

  lemma RestIs(b: Board, w: Write)
    requires forall id, t :: !BothAt(b, w, id, t)
    requires w.slot.starts < w.slot.ends && forall id :: id in b.slots ==> b.slots[id].starts < b.slots[id].ends
    ensures ConflictsOf(b, w).rest == {} <==> forall id :: SharesPlayer(b, w, id) ==> Rested(b.slots[id], w.slot)
  {
    HardIs(b, w);
    forall id
      ensures id in ConflictsOf(b, w).rest <==> SharesPlayer(b, w, id) && !Rested(b.slots[id], w.slot)
    {
      SharingIs(b, w, id);
      assert id !in ConflictsOf(b, w).players;
    }
  }

  /** A write is saved exactly when the slot to update exists, the range is not empty, court
      and match are known, at no instant its court is taken or one of its players in another
      match that is not over, and, unless waived, each such player rests half an hour. */
  lemma SavedIff(j: Journal, w: Write)
    requires Filed(j)
    ensures WriteStep(j.board, w).1.Saved? <==>
            && (w.id.Some? ==> w.id.value in j.board.slots)
            && w.slot.starts < w.slot.ends
            && w.slot.court in j.board.courts && (w.slot.game.Some? ==> w.slot.game.value < |j.board.matches|)
            && (forall id, t :: !BothAt(j.board, w, id, t))
            && (w.overrideRest || forall id :: SharesPlayer(j.board, w, id) ==> Rested(j.board.slots[id], w.slot))
  {
    forall id | id in j.board.slots
      ensures j.board.slots[id].starts < j.board.slots[id].ends
    {
      assert SlotOk(j, id);
    }
    if w.slot.starts < w.slot.ends {
      HardIs(j.board, w);
      if forall id, t :: !BothAt(j.board, w, id, t) { RestIs(j.board, w); }
    }
  }

  /** The reported conflicts: slots of the court that run at a common instant, slots of players
      that do, and slots of players that do not but leave less than half an hour. */
  lemma ConflictsAre(j: Journal, w: Write, id: nat)
    requires Filed(j) && w.slot.starts < w.slot.ends
    ensures var b, c := j.board, ConflictsOf(j.board, w);
            && (id in c.court <==>
                  && id in b.slots && w.id != Some(id) && b.slots[id].court == w.slot.court
                  && exists t :: Occupies(b.slots[id], t) && Occupies(w.slot, t))
            && (id in c.players <==> SharesPlayer(b, w, id) && exists t :: Occupies(b.slots[id], t) && Occupies(w.slot, t))
            && (id in c.rest <==>
                  && SharesPlayer(b, w, id) && (forall t :: !(Occupies(b.slots[id], t) && Occupies(w.slot, t)))
                  && !Rested(b.slots[id], w.slot))
  {
    SharingIs(j.board, w, id);
    if id in j.board.slots {
      assert SlotOk(j, id);
      OverlapMeaning(j.board.slots[id], w.slot);
    }
  }

  /** Why a write is refused, in the order of the checks; a refusal changes nothing. */
  lemma RefusedWhy(j: Journal, w: Write)
    requires Filed(j)
    ensures var (c, out) := WriteStep(j.board, w);
            && (out == NotFound <==> w.id.Some? && w.id.value !in j.board.slots)
            && (out == BadRange <==> out != NotFound && w.slot.ends <= w.slot.starts)
            && (out.Clash? <==>
                  && out != NotFound && out != BadRange
                  && ((exists id, t :: BothAt(j.board, w, id, t))
                      || (!w.overrideRest && exists id :: SharesPlayer(j.board, w, id) && !Rested(j.board.slots[id], w.slot))))
            && (out.Clash? ==> out.conflicts == ConflictsOf(j.board, w))
            && (out == BadReference <==> out != NotFound && out != BadRange && !out.Clash? && !out.Saved?)
            && (!out.Saved? ==> c == j.board)
  {
    forall id | id in j.board.slots
      ensures j.board.slots[id].starts < j.board.slots[id].ends
    {
      assert SlotOk(j, id);
    }
    if w.slot.starts < w.slot.ends {
      HardIs(j.board, w);
      if forall id, t :: !BothAt(j.board, w, id, t) { RestIs(j.board, w); }
    }
  }

  /** What a saved write leaves: its slot, and otherwise the same slots; the match it holds
      stamped and no longer pending, a match it gave up unstamped and no longer scheduled,
      and every other match as it was. */
  lemma WriteEffect(b: Board, w: Write)
    requires WriteStep(b, w).1.Saved?
    ensures var (c, out) := WriteStep(b, w);
            && (w.id.Some? ==> out.id == w.id.value && c.next == b.next)
            && (w.id.None? ==> out.id == b.next && c.next == b.next + 1)
            && c.slots == b.slots[out.id := w.slot] && c.courts == b.courts && |c.matches| == |b.matches|
    ensures var c := WriteStep(b, w).0;
            forall m :: 0 <= m < |b.matches| ==>
              && c.matches[m].teams == b.matches[m].teams
              && (w.slot.game == Some(m) ==>
                    && c.matches[m].stamp == Some(Stamp(w.slot.starts, w.slot.court))
                    && c.matches[m].status == if b.matches[m].status == Pending then Scheduled else b.matches[m].status)
              && (w.slot.game != Some(m) && w.id.Some? && b.slots[w.id.value].game == Some(m) ==>
                    && c.matches[m].stamp == None
                    && c.matches[m].status == if b.matches[m].status == Scheduled then Pending else b.matches[m].status)
              && (w.slot.game != Some(m) && !(w.id.Some? && b.slots[w.id.value].game == Some(m)) ==>
                    c.matches[m] == b.matches[m])
  {
  }

  /** What a deletion leaves: the other slots; the match of the deleted slot unstamped and no
      longer scheduled unless another slot holds it, and every other match as it was. */
  lemma DeleteEffect(b: Board, id: nat)
    ensures id !in b.slots <==> DeleteStep(b, id).1 == NotFound
    ensures id !in b.slots ==> DeleteStep(b, id).0 == b
    ensures id in b.slots ==>
              var c := DeleteStep(b, id).0;
              && c.slots == b.slots - {id} && c.courts == b.courts && c.next == b.next && |c.matches| == |b.matches|
              && forall m :: 0 <= m < |b.matches| ==>
                   && c.matches[m].teams == b.matches[m].teams
                   && if b.slots[id].game == Some(m) && forall x :: x in b.slots && x != id ==> b.slots[x].game != Some(m)
                      then && c.matches[m].stamp == None
                           && c.matches[m].status == if b.matches[m].status == Scheduled then Pending else b.matches[m].status
                      else c.matches[m] == b.matches[m]
  {
    if id in b.slots {
      var left := b.(slots := b.slots - {id});
      forall m: nat | m < |b.matches| && b.slots[id].game == Some(m)
        ensures Referenced(left, m) <==> exists x :: x in b.slots && x != id && b.slots[x].game == Some(m)
      {
        if x :| x in b.slots && x != id && b.slots[x].game == Some(m) { assert left.slots[x].game == Some(m); }
      }
    }
  }

  // Stamps

  /** Writing a slot stamps the match it takes in, and clears the one it gives up. */
  lemma WriteKeepsStamps(j: Journal, w: Write)
    requires Filed(j) && StampsReferenced(j.board) && WriteStep(j.board, w).1.Saved?
    ensures StampsReferenced(AfterWrite(j.board, w))
  {
    var b, c := j.board, AfterWrite(j.board, w);
    forall m | 0 <= m < |c.matches| && c.matches[m].stamp.Some?
      ensures Referenced(c, m)
    {
      if w.slot.game == Some(m) {
        assert c.slots[Target(b, w)].game == Some(m);
      } else {
        var id :| id in b.slots && b.slots[id].game == Some(m);
        assert SlotOk(j, id) && id != Target(b, w);
        assert id in c.slots && c.slots[id].game == Some(m);
      }
    }
  }

  lemma DeleteKeepsStamps(b: Board, id: nat)
    requires id in b.slots && StampsReferenced(b)
    ensures StampsReferenced(AfterDelete(b, id))
  {
    var c := AfterDelete(b, id);
    forall m | 0 <= m < |c.matches| && c.matches[m].stamp.Some?
      ensures Referenced(c, m)
    {
      var x :| x in b.slots && b.slots[x].game == Some(m);
      if x in c.slots { assert c.slots[x].game == Some(m); }
    }
  }

  lemma PlayKeepsStamps(b: Board, m: nat, to: Status)
    requires StampsReferenced(b)
    ensures StampsReferenced(Played(b, m, to))
  {
    var c := Played(b, m, to);
    forall x: nat | x < |c.matches| && c.matches[x].stamp.Some?
      ensures Referenced(c, x)
    {
      var id :| id in b.slots && b.slots[id].game == Some(x);
      assert c.slots[id].game == Some(x);
    }
  }

  lemma StepKeepsStamps(j: Journal, q: Request)
    requires Filed(j) && StampsReferenced(j.board)
    ensures StampsReferenced(Step(j, q).board)
  {
    match q
    case Put(w) => if WriteStep(j.board, w).1.Saved? { WriteKeepsStamps(j, w); }
    case Remove(id) => if id in j.board.slots { DeleteKeepsStamps(j.board, id); }
    case Play(m, to) => PlayKeepsStamps(j.board, m, to);
  }

  /** On every run a stamped match is in some slot. */
  lemma {:induction false} RunKeepsStamps(j: Journal, qs: seq<Request>)
    requires Filed(j) && StampsReferenced(j.board)
    ensures StampsReferenced(Run(j, qs).board)
  {
    if qs != [] {
      RunKeepsStamps(j, qs[..|qs| - 1]);
      RunKeepsFiled(j, qs[..|qs| - 1]);
      StepKeepsStamps(Run(j, qs[..|qs| - 1]), qs[|qs| - 1]);
    }
  }

  ghost predicate AllStamped(b: Board) {
    forall id :: id in b.slots && b.slots[id].game.Some? && b.slots[id].game.value < |b.matches| ==>
      b.matches[b.slots[id].game.value].stamp.Some?
  }

  /** The write takes a match out of its slot while another slot still holds it. */
  ghost predicate LeftElsewhere(b: Board, w: Write) {
    && Previous(b, w).Some? && Previous(b, w).value < |b.matches| && Previous(b, w) != w.slot.game
    && exists id :: OtherSlot(b, w, id) && b.slots[id].game == Previous(b, w)
  }

  /** Swapping a match out of a slot clears its stamp without looking for other slots,
      so every scheduled match stays stamped exactly when there is no other one. */
  lemma SwapLosesStampIff(j: Journal, w: Write)
    requires Filed(j) && AllStamped(j.board) && WriteStep(j.board, w).1.Saved?
    ensures AllStamped(AfterWrite(j.board, w)) <==> !LeftElsewhere(j.board, w)
  {
    var b, c := j.board, AfterWrite(j.board, w);
    assert forall id :: id in b.slots ==> SlotOk(j, id);
    if LeftElsewhere(b, w) {
      var id :| OtherSlot(b, w, id) && b.slots[id].game == Previous(b, w);
      assert id in c.slots && c.slots[id] == b.slots[id];
      assert c.matches[b.slots[id].game.value].stamp.None?;
    } else {
      forall id | id in c.slots && c.slots[id].game.Some? && c.slots[id].game.value < |c.matches|
        ensures c.matches[c.slots[id].game.value].stamp.Some?
      {
        if id != Target(b, w) { assert OtherSlot(b, w, id); }
      }
    }
  }

  /** Deleting a slot does look, and never clears the stamp of a match still held. */
  lemma DeleteKeepsStamped(b: Board, id: nat)
    requires id in b.slots && AllStamped(b)
    ensures AllStamped(AfterDelete(b, id))
  {
  }

  /** Slot id is where the match's stamp was taken from. */
  predicate Mirrored(b: Board, id: nat, m: nat) {
    && id in b.slots && b.slots[id].game == Some(m) && m < |b.matches|
    && b.matches[m].stamp == Some(Stamp(b.slots[id].starts, b.slots[id].court))
  }

  /** Every stamp repeats the start and court of a slot that holds the match. */
  ghost predicate StampsTrue(b: Board) {
    forall m :: 0 <= m < |b.matches| && b.matches[m].stamp.Some? ==> exists id :: Mirrored(b, id, m)
  }

  /** Writing a slot always leaves stamps true. */
  lemma WriteKeepsStampsTrue(j: Journal, w: Write)
    requires Filed(j) && StampsTrue(j.board) && WriteStep(j.board, w).1.Saved?
    ensures StampsTrue(AfterWrite(j.board, w))
  {
    var b, c := j.board, AfterWrite(j.board, w);
    forall m | 0 <= m < |c.matches| && c.matches[m].stamp.Some?
      ensures exists id :: Mirrored(c, id, m)
    {
      if w.slot.game == Some(m) {
        assert Mirrored(c, Target(b, w), m);
      } else {
        var id :| Mirrored(b, id, m);
        assert SlotOk(j, id) && id != Target(b, w);
        assert Mirrored(c, id, m);
      }
    }
  }

  /** The deleted slot gave its match the stamp, and the slots left for that match
      start at other times or on other courts. */
  ghost predicate LeavesStale(b: Board, id: nat)
    requires id in b.slots
  {
    && b.slots[id].game.Some? && Mirrored(b, id, b.slots[id].game.value)
    && Referenced(b.(slots := b.slots - {id}), b.slots[id].game.value)
    && forall other :: other in b.slots && other != id ==> !Mirrored(b, other, b.slots[id].game.value)
  }

  /** Deleting a slot keeps the stamp of a match that is still held elsewhere, even
      when the stamp repeats the deleted slot; only then does a stamp become stale. */
  lemma DeleteLeavesStaleIff(b: Board, id: nat)
    requires id in b.slots && StampsTrue(b)
    ensures StampsTrue(AfterDelete(b, id)) <==> !LeavesStale(b, id)
  {
    var c := AfterDelete(b, id);
    if LeavesStale(b, id) {
      var m := b.slots[id].game.value;
      assert c.matches[m].stamp.Some?;
      assert forall other :: Mirrored(c, other, m) ==> Mirrored(b, other, m);
    } else {
      forall m | 0 <= m < |c.matches| && c.matches[m].stamp.Some?
        ensures exists other :: Mirrored(c, other, m)
      {
        var was :| Mirrored(b, was, m);
        if was != id {
          assert Mirrored(c, was, m);
        } else {
          assert b.slots[id].game == Some(m);
          var other :| other in b.slots && other != id && Mirrored(b, other, m);
          assert Mirrored(c, other, m);
        }
      }
    }
  }

  // Runs that lose a stamp, leave a stale one, or book a player twice

  lemma RunNext(j: Journal, qs: seq<Request>, q: Request)
    ensures Run(j, qs + [q]) == Step(Run(j, qs), q)
  {
    assert (qs + [q])[..|qs|] == qs;
  }

  function Create(s: Slot): Request {
    Put(Write(None, s, false))
  }

  /** A match scheduled twice, the second time after the rest buffer. */
  predicate Twice(s: Slot, t: Slot) {
    s.game == t.game == Some(0) && s.starts < s.ends && s.ends + REST_BUFFER <= t.starts < t.ends
  }

  function TwiceBooked(one: Match, two: Match, s: Slot, t: Slot): Journal {
    Run(Opened([one, two], {s.court, t.court}), [Create(s), Create(t)])
  }

  lemma FirstCreated(one: Match, two: Match, s: Slot, courts: set<nat>)
    requires s.game == Some(0) && s.starts < s.ends && s.court in courts
    ensures Run(Opened([one, two], courts), [Create(s)])
         == Journal(Board(map[0 := s], [Booked(one, s), two], courts, 1), map[0 := Writing(0, false)], 1)
  {
    var j := Opened([one, two], courts);
    RunNext(j, [], Create(s));
    assert ConflictsOf(j.board, Write(None, s, false)) == Conflicts({}, {}, {});
    assert [one, two][0 := Booked(one, s)] == [Booked(one, s), two];
  }

  lemma TwiceBookedIs(one: Match, two: Match, s: Slot, t: Slot)
    requires Twice(s, t)
    ensures var k := TwiceBooked(one, two, s, t);
            && k.board == Board(map[0 := s, 1 := t], [Booked(Booked(one, s), t), two], {s.court, t.court}, 2)
            && k.written == map[0 := Writing(0, false), 1 := Writing(1, false)] && k.turn == 2
  {
    var courts := {s.court, t.court};
    var j := Opened([one, two], courts);
    FirstCreated(one, two, s, courts);
    RunNext(j, [Create(s)], Create(t));
    assert [Create(s)] + [Create(t)] == [Create(s), Create(t)];
    var k := Run(j, [Create(s)]);
    assert ConflictsOf(k.board, Write(None, t, false)) == Conflicts({}, {}, {});
    assert [Booked(one, s), two][0 := Booked(Booked(one, s), t)] == [Booked(Booked(one, s), t), two];
    assert map[0 := s][1 := t] == map[0 := s, 1 := t];
  }

  /** A match scheduled twice: moving another match into its first slot leaves the second
      slot with a match that carries no stamp. */
  lemma SwapLosesStamp(one: Match, two: Match, s: Slot, t: Slot)
    requires Twice(s, t)
    ensures var b := TwiceBooked(one, two, s, t).board;
            var w := Write(Some(0), s.(game := Some(1)), false);
            && WriteStep(b, w).1 == Saved(0) && AllStamped(b) && !AllStamped(AfterWrite(b, w))
            && 1 in AfterWrite(b, w).slots && AfterWrite(b, w).slots[1].game == Some(0)
            && AfterWrite(b, w).matches[0].stamp == None
  {
    TwiceBookedIs(one, two, s, t);
    var b := TwiceBooked(one, two, s, t).board;
    var w := Write(Some(0), s.(game := Some(1)), false);
    assert forall id :: id in b.slots ==> id == 0 || id == 1;
    assert forall id :: !BlocksCourt(b, w, id) && !NearPlayer(b, w, id);
    assert ConflictsOf(b, w) == Conflicts({}, {}, {});
    var c := AfterWrite(b, w);
    assert 1 in c.slots && c.slots[1] == t && c.matches[0].stamp.None?;
  }

  /** Deleting its second slot leaves it with the stamp of the slot that is gone. */
  lemma DeleteLeavesStale(one: Match, two: Match, s: Slot, t: Slot)
    requires Twice(s, t) && one.stamp.None? && two.stamp.None?
    ensures var b := TwiceBooked(one, two, s, t).board;
            && DeleteStep(b, 1).1 == Removed && StampsTrue(b) && !StampsTrue(AfterDelete(b, 1))
            && AfterDelete(b, 1).slots == map[0 := s] && AfterDelete(b, 1).matches[0].stamp == Some(Stamp(t.starts, t.court))
  {
    TwiceBookedIs(one, two, s, t);
    var b := TwiceBooked(one, two, s, t).board;
    assert Mirrored(b, 1, 0);
    assert b.slots - {1} == map[0 := s];
    var left := b.(slots := b.slots - {1});
    assert left.slots[0].game == Some(0);
    assert Referenced(left, 0);
    assert !Mirrored(AfterDelete(b, 1), 0, 0);
  }

  /** Two matches of one player: the first is played and decided, the second booked at the
      same time on another court, and then the first result is taken back. */
  function TakenBack(p: Team, s: Slot, t: Slot): seq<Request> {
    [Create(s), Play(0, Completed), Create(t), Play(0, Live)]
  }

  function Pair(p: Team, s: Slot, t: Slot): Journal {
    Opened([Match(Pending, {p}, None), Match(Pending, {p}, None)], {s.court, t.court})
  }

  lemma SecondCreated(p: Team, s: Slot, t: Slot)
    requires s.game == Some(0) && t.game == Some(1) && s.court != t.court && s.starts < s.ends && t.starts < t.ends
    ensures var k := Run(Pair(p, s, t), [Create(s), Play(0, Completed), Create(t)]);
            && k.board.slots == map[0 := s, 1 := t] && |k.board.matches| == 2
            && k.board.matches[0].teams == k.board.matches[1].teams == {p}
            && Decided(k.board.matches[0].status) && !Decided(k.board.matches[1].status)
  {
    var j := Pair(p, s, t);
    var one := Match(Pending, {p}, None);
    FirstCreated(one, one, s, {s.court, t.court});
    RunNext(j, [Create(s)], Play(0, Completed));
    RunNext(j, [Create(s)] + [Play(0, Completed)], Create(t));
    assert [Create(s)] + [Play(0, Completed)] + [Create(t)] == [Create(s), Play(0, Completed), Create(t)];
    var k := Run(j, [Create(s)] + [Play(0, Completed)]);
    assert k.board == Board(map[0 := s], [Booked(one, s).(status := Completed), one], {s.court, t.court}, 1);
    assert ConflictsOf(k.board, Write(None, t, false)) == Conflicts({}, {}, {});
    assert map[0 := s][1 := t] == map[0 := s, 1 := t];
  }

  /** Then the player is booked twice at every common instant. */
  lemma ReopenBooksTwice(p: Team, s: Slot, t: Slot)
    requires s.game == Some(0) && t.game == Some(1) && s.court != t.court && s.starts < s.ends && t.starts < t.ends
    requires Overlap(s, t)
    ensures var k := Run(Pair(p, s, t), TakenBack(p, s, t));
            && k.board.slots == map[0 := s, 1 := t] && Contend(k.board, s, t)
            && exists i :: Occupies(s, i) && Occupies(t, i)
  {
    var j := Pair(p, s, t);
    SecondCreated(p, s, t);
    RunNext(j, [Create(s), Play(0, Completed), Create(t)], Play(0, Live));
    assert [Create(s), Play(0, Completed), Create(t)] + [Play(0, Live)] == TakenBack(p, s, t);
    var k := Run(j, TakenBack(p, s, t));
    assert p in k.board.matches[0].teams * k.board.matches[1].teams;
    OverlapMeaning(s, t);
  }
}
