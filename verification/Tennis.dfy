/** Tennis as it is played, and which scores it gives. */
module Tennis {
  import opened Seqs
  import opened Wrappers
  import opened Scoring

  // Game by game and point by point; ValidateScore accepts exactly the scores of matches
  // that can be played.

  datatype Side = One | Two

  function Opponent(s: Side): Side {
    if s == One then Two else One
  }

  function SlotOf(s: Side): int {
    if s == One then 1 else 2
  }

  // A contest is the list of who won each unit (point, game or set).

  function WonBy(s: seq<Side>, side: Side): nat {
    if s == [] then 0
    else WonBy(s[..|s| - 1], side) + (if s[|s| - 1] == side then 1 else 0)
  }

  type Rule = (int, int) -> bool

  predicate OverAt(s: seq<Side>, over: Rule) {
    over(WonBy(s, One), WonBy(s, Two))
  }

  /** Play stops the moment the contest is over, and not before. */
  ghost predicate Finished(s: seq<Side>, over: Rule) {
    OverAt(s, over) && forall i :: 0 <= i < |s| ==> !OverAt(s[..i], over)
  }

  function Leader(s: seq<Side>): Side {
    if WonBy(s, Two) > WonBy(s, One) then Two else One
  }

  /** Tie-breaks: first to the target with a two-point lead, however long it takes
      (ITF Rules of Tennis, Rule 5(b); the match tie-break runs to 10). */
  predicate TiebreakOver(a: int, b: int, target: int) {
    (a >= target && a - b >= 2) || (b >= target && b - a >= 2)
  }

  const TIEBREAK: Rule := (a: int, b: int) => TiebreakOver(a, b, 7)
  const MATCH_TIEBREAK: Rule := (a: int, b: int) => TiebreakOver(a, b, 10)

  /** A tie-break set: six games with a margin of two, a tie-break game at six all
      (Rule 6(b)). */
  predicate GamesOver(a: int, b: int) {
    (a >= 6 && a - b >= 2) || (b >= 6 && b - a >= 2) || a >= 7 || b >= 7
  }

  const SET: Rule := (a: int, b: int) => GamesOver(a, b)

  datatype SetPlay = Games(games: seq<Side>, tiebreak: Option<seq<Side>>) | MatchTiebreak(points: seq<Side>)

  /** The last game started at six all. */
  predicate EndedInTiebreak(games: seq<Side>) {
    |games| > 0 && WonBy(games[..|games| - 1], One) == WonBy(games[..|games| - 1], Two) == 6
  }

  ghost predicate LegalSet(p: SetPlay, decider: bool) {
    match p
    case MatchTiebreak(points) => decider && Finished(points, MATCH_TIEBREAK)
    case Games(games, tiebreak) =>
      && !decider
      && Finished(games, SET)
      && (tiebreak.Some? <==> EndedInTiebreak(games))
      && (tiebreak.Some? ==> Finished(tiebreak.value, TIEBREAK) && Leader(tiebreak.value) == games[|games| - 1])
  }

  function WinnerOf(p: SetPlay): Side {
    Leader(if p.Games? then p.games else p.points)
  }

  /** How a set is written down. */
  function Written(number: int, p: SetPlay): SetScore {
    match p
    case MatchTiebreak(points) => SetScore(number, WonBy(points, One), WonBy(points, Two), None, None)
    case Games(games, None) => SetScore(number, WonBy(games, One), WonBy(games, Two), None, None)
    case Games(games, Some(tb)) =>
      SetScore(number, WonBy(games, One), WonBy(games, Two), Some(WonBy(tb, One)), Some(WonBy(tb, Two)))
  }

  /** More than half of the sets. */
  function MatchRule(cfg: Config): Rule {
    (a: int, b: int) => 2 * a > cfg.bestOf || 2 * b > cfg.bestOf
  }

  /** The deciding set is a match tie-break where the division plays one. */
  predicate TiebreakDecides(cfg: Config, n: int) {
    cfg.matchTiebreak && cfg.bestOf > 1 && n == cfg.bestOf
  }

  /** A match is its sets, each legal, stopping when a side has won enough (Rule 7). */
  ghost predicate LegalMatch(cfg: Config, play: seq<SetPlay>) {
    && (forall i :: 0 <= i < |play| ==> LegalSet(play[i], TiebreakDecides(cfg, i + 1)))
    && Finished(Map(WinnerOf, play), MatchRule(cfg))
  }

  function Transcript(play: seq<SetPlay>): (r: seq<SetScore>)
    ensures |r| == |play| && forall i :: 0 <= i < |r| ==> r[i].number == i + 1
  {
    seq(|play|, i requires 0 <= i < |play| => Written(i + 1, play[i]))
  }

  // From play to numbers

  lemma {:induction false} WonTotal(s: seq<Side>)
    ensures WonBy(s, One) + WonBy(s, Two) == |s|
  {
    if s != [] { WonTotal(s[..|s| - 1]); }
  }

  lemma TiebreakScore(s: seq<Side>, over: Rule, target: int)
    requires target >= 2 && over == ((a: int, b: int) => TiebreakOver(a, b, target))
    requires Finished(s, over)
    ensures var hi, lo := Max(WonBy(s, One), WonBy(s, Two)), Min(WonBy(s, One), WonBy(s, Two));
            RaceScore(hi, lo, target)
  {
    assert s != [];
    assert !OverAt(s[..|s| - 1], over);
  }

  lemma SetScoreShape(s: seq<Side>)
    requires Finished(s, SET)
    ensures var hi, lo := Max(WonBy(s, One), WonBy(s, Two)), Min(WonBy(s, One), WonBy(s, Two));
            && ((hi == 6 && lo <= 4) || (hi == 7 && (lo == 5 || lo == 6)))
            && (EndedInTiebreak(s) <==> hi == 7 && lo == 6)
            && (EndedInTiebreak(s) ==> Leader(s) == s[|s| - 1])
  {
    assert s != [];
    assert !OverAt(s[..|s| - 1], SET);
  }

  lemma LegalSetAccepted(number: int, p: SetPlay, decider: bool, allowPartial: bool)
    requires LegalSet(p, decider)
    ensures ValidateSet(Written(number, p), decider, allowPartial) == SetVerdict(SlotOf(WinnerOf(p)), true, None)
  {
    match p
    case MatchTiebreak(points) =>
      TiebreakScore(points, MATCH_TIEBREAK, 10);
    case Games(games, tiebreak) =>
      SetScoreShape(games);
      if tiebreak.Some? {
        TiebreakScore(tiebreak.value, TIEBREAK, 7);
      }
  }

  // From numbers to play

  /** A contest that ends hi - lo: level as long as possible, then the winner pulls away. */
  function Path(hi: nat, lo: nat, w: Side): (r: seq<Side>)
    requires hi >= lo
    ensures |r| == hi + lo
    decreases hi + lo
  {
    if hi > lo then Path(hi - 1, lo, w) + [w]
    else if hi == 0 then []
    else Path(hi, lo - 1, w) + [Opponent(w)]
  }

  lemma {:induction false} PathScore(hi: nat, lo: nat, w: Side)
    requires hi >= lo
    ensures WonBy(Path(hi, lo, w), w) == hi && WonBy(Path(hi, lo, w), Opponent(w)) == lo
    decreases hi + lo
  {
    if hi > lo {
      var before := Path(hi - 1, lo, w);
      PathScore(hi - 1, lo, w);
      OneMore(before, before + [w], w, Opponent(w), hi - 1, lo);
    } else if hi > 0 {
      var before := Path(hi, lo - 1, w);
      PathScore(hi, lo - 1, w);
      OneMore(before, before + [Opponent(w)], Opponent(w), w, lo - 1, hi);
    }
  }

  lemma OneMore(s: seq<Side>, t: seq<Side>, x: Side, y: Side, a: nat, b: nat)
    requires x != y && t == s + [x] && WonBy(s, x) == a && WonBy(s, y) == b
    ensures WonBy(t, x) == a + 1 && WonBy(t, y) == b
  {
    assert t[..|s|] == s;
  }

  lemma PathButLast(hi: nat, lo: nat, w: Side)
    requires hi >= lo && hi + lo > 0
    ensures |Path(hi, lo, w)| == hi + lo
    ensures Path(hi, lo, w)[..hi + lo - 1] == if hi > lo then Path(hi - 1, lo, w) else Path(hi, lo - 1, w)
  {
    PathScore(hi, lo, w);
  }

  /** The scores passed on the way: the lead is at most one, or only the winner's
      last units are missing. */
  ghost predicate OnTheWay(hi: nat, lo: nat, a: int, b: int) {
    0 <= b <= a <= hi && b <= lo && (a - b <= 1 || (b == lo && a < hi)) && a + b < hi + lo
  }

  lemma {:induction false} PathPrefix(hi: nat, lo: nat, w: Side, i: nat) returns (a: nat, b: nat)
    requires hi >= lo && i < hi + lo && |Path(hi, lo, w)| == hi + lo
    ensures a + b == i && OnTheWay(hi, lo, a, b)
    ensures Path(hi, lo, w)[..i] == Path(a, b, w)
    decreases hi + lo
  {
    PathButLast(hi, lo, w);
    var n := hi + lo - 1;
    a, b := if hi > lo then hi - 1 else hi, if hi > lo then lo else lo - 1;
    if i < n {
      var p, q := a, b;
      assert Path(hi, lo, w)[..i] == Path(p, q, w)[..i];
      a, b := PathPrefix(p, q, w, i);
    }
  }

  lemma PathFinishes(hi: nat, lo: nat, w: Side, over: Rule)
    requires hi > lo
    requires over(hi, lo) && over(lo, hi)
    requires forall a, b :: OnTheWay(hi, lo, a, b) ==> !over(a, b) && !over(b, a)
    ensures Finished(Path(hi, lo, w), over)
    ensures Leader(Path(hi, lo, w)) == w
  {
    PathScore(hi, lo, w);
    forall i | 0 <= i < hi + lo
      ensures !OverAt(Path(hi, lo, w)[..i], over)
    {
      var a, b := PathPrefix(hi, lo, w, i);
      PathScore(a, b, w);
    }
  }

  function PathTo(a: nat, b: nat): seq<Side> {
    if b > a then Path(b, a, Two) else Path(a, b, One)
  }

  lemma TiebreakPlayable(a: nat, b: nat, target: int, over: Rule)
    requires target >= 2 && over == ((a: int, b: int) => TiebreakOver(a, b, target))
    requires RaceScore(Max(a, b), Min(a, b), target)
    ensures Finished(PathTo(a, b), over)
    ensures Leader(PathTo(a, b)) == if b > a then Two else One
    ensures WonBy(PathTo(a, b), One) == a && WonBy(PathTo(a, b), Two) == b
  {
    var hi, lo := Max(a, b), Min(a, b);
    PathFinishes(hi, lo, if b > a then Two else One, over);
    PathScore(hi, lo, if b > a then Two else One);
  }

  lemma SetPlayable(a: nat, b: nat)
    requires var hi, lo := Max(a, b), Min(a, b); (hi == 6 && lo <= 4) || (hi == 7 && (lo == 5 || lo == 6))
    ensures var s := PathTo(a, b);
            && Finished(s, SET)
            && WonBy(s, One) == a && WonBy(s, Two) == b
            && Leader(s) == (if b > a then Two else One)
  {
    var hi, lo := Max(a, b), Min(a, b);
    PathFinishes(hi, lo, if b > a then Two else One, SET);
    PathScore(hi, lo, if b > a then Two else One);
  }

  /** A play of the set, given its score. */
  function PlayOf(st: SetScore, decider: bool): SetPlay
    requires ValidateSet(st, decider, false).rule.None?
  {
    if decider then MatchTiebreak(PathTo(st.games1, st.games2))
    else Games(PathTo(st.games1, st.games2),
               if st.tb1.Some? then Some(PathTo(st.tb1.value, st.tb2.value)) else None)
  }

  lemma AcceptedSetPlayable(st: SetScore, decider: bool)
    requires ValidateSet(st, decider, false).rule.None?
    ensures LegalSet(PlayOf(st, decider), decider)
    ensures Written(st.number, PlayOf(st, decider)) == st
  {
    var a, b := st.games1, st.games2;
    if decider {
      TiebreakPlayable(a, b, 10, MATCH_TIEBREAK);
    } else {
      SetPlayable(a, b);
      SetScoreShape(PathTo(a, b));
      if st.tb1.Some? {
        TiebreakPlayable(st.tb1.value, st.tb2.value, 7, TIEBREAK);
      }
    }
  }

  // The loop over the sets plays the match

  /** Complete sets without violations, won by ws. */
  ghost predicate AllComplete(vs: seq<SetVerdict>, ws: seq<Side>) {
    |vs| == |ws| && forall i :: 0 <= i < |vs| ==> vs[i] == SetVerdict(SlotOf(ws[i]), true, None)
  }

  /** As long as the match is not over early, the tally is the score in sets. */
  lemma {:induction false} CountedIsScore(cfg: Config, s: seq<SetScore>, vs: seq<SetVerdict>, ws: seq<Side>, n: nat)
    requires |s| == |vs| && n <= |s| && AllComplete(vs, ws) && cfg.bestOf >= 1
    requires forall i :: 0 <= i < n ==> !OverAt(ws[..i], MatchRule(cfg))
    ensures Counted(cfg, s, vs, [], n)
         == Tally(WonBy(ws[..n], One), WonBy(ws[..n], Two), if OverAt(ws[..n], MatchRule(cfg)) then n else 0, [])
  {
    if n > 0 {
      CountedIsScore(cfg, s, vs, ws, n - 1);
      assert ws[..n][..n - 1] == ws[..n - 1];
    }
  }

  /** A set after the match is over is a violation. */
  lemma {:induction false} NoSetAfterTheEnd(cfg: Config, s: seq<SetScore>, vs: seq<SetVerdict>, ws: seq<Side>, n: nat)
    requires |s| == |vs| && n <= |s| && AllComplete(vs, ws) && cfg.bestOf >= 1
    requires Counted(cfg, s, vs, [], n).violations == []
    ensures forall i :: 0 <= i < n ==> !OverAt(ws[..i], MatchRule(cfg))
  {
    if n > 0 {
      NoSetAfterTheEnd(cfg, s, vs, ws, n - 1);
      CountedIsScore(cfg, s, vs, ws, n - 1);
    }
  }

  /** A violation in any set is kept. */
  lemma {:induction false} CleanSets(cfg: Config, s: seq<SetScore>, vs: seq<SetVerdict>, n: nat)
    requires |s| == |vs| && n <= |s|
    requires Counted(cfg, s, vs, [], n).violations == []
    ensures forall i :: 0 <= i < n ==> vs[i].rule.None?
  {
    if n > 0 { CleanSets(cfg, s, vs, n - 1); }
  }

  ghost predicate CanBePlayed(cfg: Config, s: seq<SetScore>) {
    exists play :: PlayedAs(cfg, s, play)
  }

  ghost predicate PlayedAs(cfg: Config, s: seq<SetScore>, play: seq<SetPlay>) {
    LegalMatch(cfg, play) && s == Transcript(play)
  }

  lemma LegalSetsComplete(cfg: Config, play: seq<SetPlay>, c: Completion)
    requires forall i :: 0 <= i < |play| ==> LegalSet(play[i], IsDecider(cfg, i + 1))
    ensures AllComplete(SetVerdicts(cfg, Transcript(play), c), Map(WinnerOf, play))
  {
    var s := Transcript(play);
    forall i | 0 <= i < |play|
      ensures SetVerdicts(cfg, s, c)[i] == SetVerdict(SlotOf(WinnerOf(play[i])), true, None)
    {
      LegalSetAccepted(i + 1, play[i], IsDecider(cfg, i + 1), i == |s| - 1 && c != Normal);
      VerdictAt(cfg, s, c, i);
    }
  }

  lemma VerdictAt(cfg: Config, s: seq<SetScore>, c: Completion, i: nat)
    requires i < |s|
    ensures SetVerdicts(cfg, s, c)[i] == ValidateSet(s[i], IsDecider(cfg, i + 1), i == |s| - 1 && c != Normal)
  {
  }

  /** An odd best-of bounds the number of sets. */
  lemma SetsFitBestOf(cfg: Config, ws: seq<Side>)
    requires cfg.bestOf >= 1 && cfg.bestOf % 2 == 1 && Finished(ws, MatchRule(cfg))
    ensures 1 <= |ws| <= cfg.bestOf
  {
    assert ws != [];
    assert !OverAt(ws[..|ws| - 1], MatchRule(cfg));
    WonTotal(ws[..|ws| - 1]);
  }

  lemma PlayedIsAccepted(cfg: Config, play: seq<SetPlay>)
    requires cfg.bestOf >= 1 && cfg.bestOf % 2 == 1 && LegalMatch(cfg, play)
    ensures JudgeOrdered(cfg, Transcript(play), Normal, 0) == Accepted(SlotOf(Leader(Map(WinnerOf, play))), Completed)
  {
    var ws, s := Map(WinnerOf, play), Transcript(play);
    LegalSetsComplete(cfg, play, Normal);
    SetsFitBestOf(cfg, ws);
    assert ws[..|ws|] == ws;
    CountedIsScore(cfg, s, SetVerdicts(cfg, s, Normal), ws, |s|);
    JudgeByTally(cfg, s, Normal);
    TallyDecides(cfg, ws);
  }

  lemma TallyDecides(cfg: Config, ws: seq<Side>)
    requires ws != [] && OverAt(ws, MatchRule(cfg))
    ensures Conclude(Tally(WonBy(ws, One), WonBy(ws, Two), |ws|, []), |ws|, Normal, 0)
         == Accepted(SlotOf(Leader(ws)), Completed)
  {
  }

  lemma JudgeByTally(cfg: Config, s: seq<SetScore>, c: Completion)
    requires c == Normal || c == Incomplete
    requires 1 <= |s| <= cfg.bestOf && forall i :: 0 <= i < |s| ==> s[i].number == i + 1
    ensures JudgeOrdered(cfg, s, c, 0) == Conclude(Counted(cfg, s, SetVerdicts(cfg, s, c), [], |s|), |s|, c, 0)
  {
    NumberedInOrder(s, 0);
  }

  lemma {:induction false} NumberedInOrder(s: seq<SetScore>, from: nat)
    requires from <= |s| && forall i :: 0 <= i < |s| ==> s[i].number == i + 1
    ensures Misnumbered(s, from) == |s|
    decreases |s| - from
  {
    if from < |s| { NumberedInOrder(s, from + 1); }
  }

  function Replay(cfg: Config, s: seq<SetScore>): (play: seq<SetPlay>)
    requires forall i :: 0 <= i < |s| ==> ValidateSet(s[i], IsDecider(cfg, i + 1), false).rule.None?
    ensures |play| == |s|
  {
    seq(|s|, i requires 0 <= i < |s| => PlayOf(s[i], IsDecider(cfg, i + 1)))
  }

  lemma ReplayLegal(cfg: Config, s: seq<SetScore>)
    requires forall i :: 0 <= i < |s| ==> s[i].number == i + 1
    requires forall i :: 0 <= i < |s| ==> ValidateSet(s[i], IsDecider(cfg, i + 1), false).rule.None?
    ensures forall i :: 0 <= i < |s| ==> LegalSet(Replay(cfg, s)[i], IsDecider(cfg, i + 1))
    ensures Transcript(Replay(cfg, s)) == s
  {
    forall i | 0 <= i < |s|
      ensures LegalSet(Replay(cfg, s)[i], IsDecider(cfg, i + 1)) && Written(i + 1, Replay(cfg, s)[i]) == s[i]
    {
      ReplayedSet(cfg, s, i);
    }
    TranscriptIs(Replay(cfg, s), s);
  }

  lemma TranscriptIs(play: seq<SetPlay>, s: seq<SetScore>)
    requires |play| == |s| && forall i :: 0 <= i < |s| ==> Written(i + 1, play[i]) == s[i]
    ensures Transcript(play) == s
  {
  }

  lemma ReplayedSet(cfg: Config, s: seq<SetScore>, i: nat)
    requires forall i :: 0 <= i < |s| ==> ValidateSet(s[i], IsDecider(cfg, i + 1), false).rule.None?
    requires i < |s| && s[i].number == i + 1
    ensures LegalSet(Replay(cfg, s)[i], IsDecider(cfg, i + 1)) && Written(i + 1, Replay(cfg, s)[i]) == s[i]
  {
    AcceptedSetPlayable(s[i], IsDecider(cfg, i + 1));
  }

  /** What acceptance says of the loop. */
  lemma AcceptedTally(cfg: Config, s: seq<SetScore>, winnerSlot: int)
    requires JudgeOrdered(cfg, s, Normal, winnerSlot).Accepted?
    ensures winnerSlot == 0 && forall i :: 0 <= i < |s| ==> s[i].number == i + 1
    ensures var t := Counted(cfg, s, SetVerdicts(cfg, s, Normal), [], |s|);
            t.violations == [] && t.decidedAfter != 0
  {
    StartKept(cfg, s, SetVerdicts(cfg, s, Normal), WinnerRules(Normal, winnerSlot), |s|);
  }

  lemma AcceptedIsPlayed(cfg: Config, s: seq<SetScore>, winnerSlot: int)
    requires cfg.bestOf >= 1 && JudgeOrdered(cfg, s, Normal, winnerSlot).Accepted?
    ensures winnerSlot == 0 && CanBePlayed(cfg, s)
  {
    AcceptedTally(cfg, s, winnerSlot);
    AcceptedSetsClean(cfg, s);
    ReplayLegal(cfg, s);
    DecidedAtTheEnd(cfg, s, Replay(cfg, s));
    assert PlayedAs(cfg, s, Replay(cfg, s));
  }

  lemma AcceptedSetsClean(cfg: Config, s: seq<SetScore>)
    requires Counted(cfg, s, SetVerdicts(cfg, s, Normal), [], |s|).violations == []
    ensures forall i :: 0 <= i < |s| ==> ValidateSet(s[i], IsDecider(cfg, i + 1), false).rule.None?
  {
    var vs := SetVerdicts(cfg, s, Normal);
    CleanSets(cfg, s, vs, |s|);
    assert forall i :: 0 <= i < |s| ==> vs[i] == ValidateSet(s[i], IsDecider(cfg, i + 1), false);
  }

  lemma DecidedAtTheEnd(cfg: Config, s: seq<SetScore>, play: seq<SetPlay>)
    requires cfg.bestOf >= 1 && s == Transcript(play)
    requires forall i :: 0 <= i < |play| ==> LegalSet(play[i], IsDecider(cfg, i + 1))
    requires var t := Counted(cfg, s, SetVerdicts(cfg, s, Normal), [], |s|);
             t.violations == [] && t.decidedAfter != 0
    ensures Finished(Map(WinnerOf, play), MatchRule(cfg))
  {
    var vs, ws := SetVerdicts(cfg, s, Normal), Map(WinnerOf, play);
    LegalSetsComplete(cfg, play, Normal);
    NoSetAfterTheEnd(cfg, s, vs, ws, |s|);
    CountedIsScore(cfg, s, vs, ws, |s|);
    assert ws[..|s|] == ws;
  }

  /** A "normal" completion is accepted exactly when its sets, put in number order,
      are the transcript of a match that is decided at its last set. */
  lemma NormalScoresAreTranscripts(cfg: Config, sets: seq<SetScore>, winnerSlot: int)
    requires cfg.bestOf >= 1 && cfg.bestOf % 2 == 1
    ensures Judge(cfg, sets, Normal, winnerSlot).Accepted?
            <==> winnerSlot == 0 && CanBePlayed(cfg, SortSets(sets))
  {
    if Judge(cfg, sets, Normal, winnerSlot).Accepted? {
      AcceptedIsPlayed(cfg, SortSets(sets), winnerSlot);
    }
    if winnerSlot == 0 && CanBePlayed(cfg, SortSets(sets)) {
      var play :| PlayedAs(cfg, SortSets(sets), play);
      TranscriptWinner(cfg, sets, play);
    }
  }

  /** And the winner returned is that match's winner. */
  lemma TranscriptWinner(cfg: Config, sets: seq<SetScore>, play: seq<SetPlay>)
    requires cfg.bestOf >= 1 && cfg.bestOf % 2 == 1
    requires PlayedAs(cfg, SortSets(sets), play)
    ensures Judge(cfg, sets, Normal, 0) == Accepted(SlotOf(Leader(Map(WinnerOf, play))), Completed)
  {
    PlayedIsAccepted(cfg, play);
  }

  /** Every non-empty strict prefix of an accepted normal score is accepted as
      incomplete play. */
  lemma PrefixIsIncomplete(cfg: Config, sets: seq<SetScore>, part: seq<SetScore>, k: nat)
    requires cfg.bestOf >= 1 && cfg.bestOf % 2 == 1
    requires Judge(cfg, sets, Normal, 0).Accepted?
    requires 0 < k < |SortSets(sets)| && multiset(part) == multiset(SortSets(sets)[..k])
    ensures Judge(cfg, part, Incomplete, 0) == Accepted(0, Live)
  {
    var s := SortSets(sets);
    AcceptedIsPlayed(cfg, s, 0);
    var play :| PlayedAs(cfg, s, play);
    UnfinishedIsIncomplete(cfg, play, k);
    TranscriptPrefix(play, k);
    SortedVerdictUnique(cfg, SortSets(part), s[..k], Incomplete, 0);
  }

  lemma TranscriptPrefix(play: seq<SetPlay>, k: nat)
    requires k <= |play|
    ensures Transcript(play[..k]) == Transcript(play)[..k]
  {
  }

  lemma NotOverYet(cfg: Config, play: seq<SetPlay>, k: nat)
    requires LegalMatch(cfg, play) && k < |play|
    ensures var ws := Map(WinnerOf, play[..k]); forall i :: 0 <= i <= k ==> !OverAt(ws[..i], MatchRule(cfg))
  {
    var ws := Map(WinnerOf, play[..k]);
    forall i | 0 <= i <= k
      ensures !OverAt(ws[..i], MatchRule(cfg))
    {
      assert ws[..i] == Map(WinnerOf, play)[..i];
    }
  }

  lemma UnfinishedIsIncomplete(cfg: Config, play: seq<SetPlay>, k: nat)
    requires cfg.bestOf >= 1 && cfg.bestOf % 2 == 1 && LegalMatch(cfg, play) && 0 < k < |play|
    ensures JudgeOrdered(cfg, Transcript(play[..k]), Incomplete, 0) == Accepted(0, Live)
  {
    SetsFitBestOf(cfg, Map(WinnerOf, play));
    NotOverYet(cfg, play, k);
    OpenPlayIsIncomplete(cfg, play[..k]);
  }

  /** Complete sets that have not decided the match. */
  lemma {:induction false} OpenPlayIsIncomplete(cfg: Config, part: seq<SetPlay>)
    requires 1 <= |part| <= cfg.bestOf && forall i :: 0 <= i < |part| ==> LegalSet(part[i], IsDecider(cfg, i + 1))
    requires forall i :: 0 <= i <= |part| ==> !OverAt(Map(WinnerOf, part)[..i], MatchRule(cfg))
    requires cfg.bestOf % 2 == 1
    ensures JudgeOrdered(cfg, Transcript(part), Incomplete, 0) == Accepted(0, Live)
  {
    var k, ws, s := |part|, Map(WinnerOf, part), Transcript(part);
    LegalSetsComplete(cfg, part, Incomplete);
    CountedIsScore(cfg, s, SetVerdicts(cfg, s, Incomplete), ws, k);
    assert ws[..k] == ws;
    JudgeByTally(cfg, s, Incomplete);
  }

  // Matches that are not played out

  predicate NoTiebreak(st: SetScore) {
    st.tb1.None? && st.tb2.None?
  }

  /** A tie-break won 7 to 5 or less, or by two beyond it. */
  predicate WonTiebreak(x: Option<int>, y: Option<int>) {
    x.Some? && y.Some? && ((x.value == 7 && y.value <= 5) || (x.value > 7 && x.value == y.value + 2))
  }

  /** What may stand as the last set of a match that was not played out: nothing negative;
      points without tie-break fields in a deciding match tie-break; otherwise up to six games
      each, or a set just won, whose tie-break may be missing. */
  predicate LastSet(st: SetScore, decider: bool) {
    var a, b := st.games1, st.games2;
    && a >= 0 && b >= 0 && (st.tb1.Some? ==> st.tb1.value >= 0) && (st.tb2.Some? ==> st.tb2.value >= 0)
    && if decider || (a == 6 && b <= 4) || (b == 6 && a <= 4) || (a == 7 && b == 5) || (a == 5 && b == 7) then NoTiebreak(st)
       else if a == 7 && b == 6 then st.tb1.None? || st.tb2.None? || WonTiebreak(st.tb1, st.tb2)
       else if a == 6 && b == 7 then st.tb1.None? || st.tb2.None? || WonTiebreak(st.tb2, st.tb1)
       else a <= 6 && b <= 6
  }

  lemma {:induction false} LastSetIff(st: SetScore, decider: bool)
    ensures ValidateSet(st, decider, true).rule.None? <==> LastSet(st, decider)
    ensures ValidateSet(st, decider, true).complete <==> ValidateSet(st, decider, false).rule.None?
  {
  }

  /** The set ends the match that stands at ws. */
  ghost predicate Ends(cfg: Config, ws: seq<Side>, st: SetScore) {
    exists p :: EndsWith(cfg, ws, st, p)
  }

  ghost predicate EndsWith(cfg: Config, ws: seq<Side>, st: SetScore, p: SetPlay) {
    LegalSet(p, TiebreakDecides(cfg, st.number)) && Written(st.number, p) == st && OverAt(ws + [WinnerOf(p)], MatchRule(cfg))
  }

  /** Complete sets, none of which has ended the match. */
  ghost predicate StillOn(cfg: Config, s: seq<SetScore>, play: seq<SetPlay>) {
    && |play| == |s| && s == Transcript(play)
    && (forall i :: 0 <= i < |play| ==> LegalSet(play[i], TiebreakDecides(cfg, i + 1)))
    && (forall i :: 0 <= i <= |play| ==> !OverAt(Map(WinnerOf, play)[..i], MatchRule(cfg)))
  }

  /** The score of a match up to some point: sets numbered from one, no more than best-of, all
      but the last complete, the match still on before the last. */
  ghost predicate PartlyPlayed(cfg: Config, s: seq<SetScore>, c: Completion) {
    && 1 <= |s| <= cfg.bestOf && s[|s| - 1].number == |s| && LastSet(s[|s| - 1], TiebreakDecides(cfg, |s|))
    && exists play :: PlayedUntil(cfg, s, c, play)
  }

  ghost predicate PlayedUntil(cfg: Config, s: seq<SetScore>, c: Completion, play: seq<SetPlay>)
    requires s != []
  {
    StillOn(cfg, s[..|s| - 1], play) && (c == Incomplete ==> !Ends(cfg, Map(WinnerOf, play), s[|s| - 1]))
  }

  lemma {:induction false} TallyOfPrefix(cfg: Config, s: seq<SetScore>, vs: seq<SetVerdict>, n: nat, k: nat)
    requires |s| == |vs| && n <= k <= |s|
    ensures Counted(cfg, s, vs, [], n) == Counted(cfg, s[..k], vs[..k], [], n)
  {
    if n > 0 { TallyOfPrefix(cfg, s, vs, n - 1, k); }
  }

  lemma {:induction false} SetComplete(cfg: Config, s: seq<SetScore>, c: Completion, p: SetPlay, i: nat)
    requires i < |s| - 1 && Written(i + 1, p) == s[i] && LegalSet(p, TiebreakDecides(cfg, i + 1))
    ensures SetVerdicts(cfg, s, c)[i] == SetVerdict(SlotOf(WinnerOf(p)), true, None)
  {
    LegalSetAccepted(i + 1, p, IsDecider(cfg, i + 1), false);
    VerdictAt(cfg, s, c, i);
  }

  lemma {:induction false} PrefixComplete(cfg: Config, s: seq<SetScore>, c: Completion, play: seq<SetPlay>)
    requires s != [] && Transcript(play) == s[..|s| - 1]
    requires forall i :: 0 <= i < |play| ==> LegalSet(play[i], TiebreakDecides(cfg, i + 1))
    ensures AllComplete(SetVerdicts(cfg, s, c)[..|s| - 1], Map(WinnerOf, play))
  {
    var vs, ws := SetVerdicts(cfg, s, c), Map(WinnerOf, play);
    forall i: nat | i < |play|
      ensures vs[i] == SetVerdict(SlotOf(ws[i]), true, None)
    {
      SetAt(s, play, i);
      SetComplete(cfg, s, c, play[i], i);
    }
    assert AllComplete(vs[..|s| - 1], ws);
  }

  lemma {:induction false} SetAt(s: seq<SetScore>, play: seq<SetPlay>, i: nat)
    requires s != [] && Transcript(play) == s[..|s| - 1] && i < |play|
    ensures |play| == |s| - 1 && s[i] == Written(i + 1, play[i])
  {
    assert s[i] == Transcript(play)[i];
  }

  /** The tally before the last set. */
  lemma {:induction false} TallyBefore(cfg: Config, s: seq<SetScore>, c: Completion, play: seq<SetPlay>)
    requires s != [] && cfg.bestOf >= 1 && cfg.bestOf % 2 == 1 && StillOn(cfg, s[..|s| - 1], play)
    ensures var ws := Map(WinnerOf, play);
            Counted(cfg, s, SetVerdicts(cfg, s, c), [], |s| - 1) == Tally(WonBy(ws, One), WonBy(ws, Two), 0, [])
  {
    var n, ws, vs := |s| - 1, Map(WinnerOf, play), SetVerdicts(cfg, s, c);
    PrefixComplete(cfg, s, c, play);
    TallyOfPrefix(cfg, s, vs, n, n);
    CountedIsScore(cfg, s[..n], vs[..n], ws, n);
    assert ws[..n] == ws;
  }

  lemma {:induction false} OneMoreSet(ws: seq<Side>, w: Side)
    ensures WonBy(ws + [w], One) == WonBy(ws, One) + (if w == One then 1 else 0)
    ensures WonBy(ws + [w], Two) == WonBy(ws, Two) + (if w == Two then 1 else 0)
  {
    assert (ws + [w])[..|ws|] == ws;
  }

  /** What the last set adds. */
  lemma {:induction false} TallyAfter(cfg: Config, ws: seq<Side>, st: SetScore, n: nat)
    requires cfg.bestOf >= 1 && cfg.bestOf % 2 == 1 && !OverAt(ws, MatchRule(cfg)) && st.number == n >= 1
    ensures var v := ValidateSet(st, IsDecider(cfg, n), true);
            var t := CountSet(cfg, Tally(WonBy(ws, One), WonBy(ws, Two), 0, []), st, v, n);
            && (t.violations == [] <==> LastSet(st, TiebreakDecides(cfg, n)))
            && t.decidedAfter == if Ends(cfg, ws, st) then n else 0
  {
    var decider := IsDecider(cfg, n);
    LastSetIff(st, decider);
    if ValidateSet(st, decider, true).complete {
      var p := PlayOf(st, decider);
      AcceptedSetPlayable(st, decider);
      CompleteAs(cfg, ws, st, n, p);
      if p' :| EndsWith(cfg, ws, st, p') { CompleteAs(cfg, ws, st, n, p'); }
    } else if p :| EndsWith(cfg, ws, st, p) {
      LegalSetAccepted(n, p, decider, true);
      assert false;
    }
  }

  lemma {:induction false} CompleteAs(cfg: Config, ws: seq<Side>, st: SetScore, n: nat, p: SetPlay)
    requires cfg.bestOf >= 1 && cfg.bestOf % 2 == 1 && !OverAt(ws, MatchRule(cfg)) && st.number == n >= 1
    requires LegalSet(p, TiebreakDecides(cfg, n)) && Written(n, p) == st
    ensures var v := ValidateSet(st, IsDecider(cfg, n), true);
            var t := CountSet(cfg, Tally(WonBy(ws, One), WonBy(ws, Two), 0, []), st, v, n);
            t.decidedAfter == if OverAt(ws + [WinnerOf(p)], MatchRule(cfg)) then n else 0
    ensures EndsWith(cfg, ws, st, p) <==> OverAt(ws + [WinnerOf(p)], MatchRule(cfg))
  {
    LegalSetAccepted(n, p, IsDecider(cfg, n), true);
    OneMoreSet(ws, WinnerOf(p));
  }

  lemma {:induction false} PartlyPlayedAccepted(cfg: Config, s: seq<SetScore>, c: Completion, w: int, play: seq<SetPlay>)
    requires cfg.bestOf >= 1 && cfg.bestOf % 2 == 1 && c in {Incomplete, Retired, Cancelled} && WinnerRules(c, w) == []
    requires 1 <= |s| <= cfg.bestOf && s[|s| - 1].number == |s| && LastSet(s[|s| - 1], TiebreakDecides(cfg, |s|))
    requires PlayedUntil(cfg, s, c, play)
    ensures JudgeOrdered(cfg, s, c, w).Accepted?
  {
    var n, ws, last := |s|, Map(WinnerOf, play), s[|s| - 1];
    TallyBefore(cfg, s, c, play);
    VerdictAt(cfg, s, c, n - 1);
    assert ws[..n - 1] == ws;
    TallyAfter(cfg, ws, last, n);
    NumberedSets(s, play);
    NumberedInOrder(s, 0);
    AcceptedByTally(cfg, s, c, w);
  }

  lemma {:induction false} NumberedSets(s: seq<SetScore>, play: seq<SetPlay>)
    requires s != [] && Transcript(play) == s[..|s| - 1] && s[|s| - 1].number == |s|
    ensures forall i :: 0 <= i < |s| ==> s[i].number == i + 1
  {
    forall i | 0 <= i < |s| - 1
      ensures s[i].number == i + 1
    {
      assert s[i] == Transcript(play)[i];
    }
  }

  lemma {:induction false} AcceptedByTally(cfg: Config, s: seq<SetScore>, c: Completion, w: int)
    requires c in {Incomplete, Retired, Cancelled} && WinnerRules(c, w) == []
    requires 1 <= |s| <= cfg.bestOf && Misnumbered(s, 0) == |s|
    requires var t := Counted(cfg, s, SetVerdicts(cfg, s, c), [], |s|);
             t.violations == [] && (t.decidedAfter == 0 || (t.decidedAfter == |s| && c != Incomplete))
    ensures JudgeOrdered(cfg, s, c, w).Accepted?
  {
  }

  /** What acceptance says of a match that was not played out. */
  lemma {:induction false} AcceptedParts(cfg: Config, s: seq<SetScore>, c: Completion, w: int)
    requires cfg.bestOf >= 1 && c in {Incomplete, Retired, Cancelled} && s != [] && JudgeOrdered(cfg, s, c, w).Accepted?
    ensures WinnerRules(c, w) == [] && |s| <= cfg.bestOf && forall i :: 0 <= i < |s| ==> s[i].number == i + 1
    ensures var t := Counted(cfg, s, SetVerdicts(cfg, s, c), [], |s|);
            t.violations == [] && (t.decidedAfter == 0 || (t.decidedAfter >= |s| && c != Incomplete))
  {
    StartKept(cfg, s, SetVerdicts(cfg, s, c), WinnerRules(c, w), |s|);
    DecidedIsWon(cfg, s, SetVerdicts(cfg, s, c), [], |s|);
  }

  lemma {:induction false} SetsBeforeClean(cfg: Config, s: seq<SetScore>, c: Completion)
    requires s != [] && Counted(cfg, s, SetVerdicts(cfg, s, c), [], |s|).violations == []
    ensures forall i :: 0 <= i < |s| - 1 ==> ValidateSet(s[i], IsDecider(cfg, i + 1), false).rule.None?
    ensures Counted(cfg, s, SetVerdicts(cfg, s, c), [], |s| - 1).violations == []
  {
    var vs := SetVerdicts(cfg, s, c);
    CleanSets(cfg, s, vs, |s|);
    forall i | 0 <= i < |s| - 1
      ensures ValidateSet(s[i], IsDecider(cfg, i + 1), false).rule.None?
    {
      VerdictAt(cfg, s, c, i);
    }
  }

  lemma {:induction false} AcceptedIsPartlyPlayed(cfg: Config, s: seq<SetScore>, c: Completion, w: int)
    requires cfg.bestOf >= 1 && cfg.bestOf % 2 == 1 && c in {Incomplete, Retired, Cancelled}
    requires s != [] && JudgeOrdered(cfg, s, c, w).Accepted?
    ensures PartlyPlayed(cfg, s, c)
  {
    var n, vs := |s| - 1, SetVerdicts(cfg, s, c);
    AcceptedParts(cfg, s, c, w);
    SetsBeforeClean(cfg, s, c);
    var play := Replay(cfg, s[..n]);
    ReplayLegal(cfg, s[..n]);
    var ws := Map(WinnerOf, play);
    StillOnBefore(cfg, s, c, play);
    TallyBefore(cfg, s, c, play);
    VerdictAt(cfg, s, c, n);
    assert ws[..n] == ws;
    TallyAfter(cfg, ws, s[n], n + 1);
    assert PlayedUntil(cfg, s, c, play);
  }

  /** The sets before the last, as long as they show no violation. */
  lemma {:induction false} TallyFromSets(cfg: Config, s: seq<SetScore>, c: Completion, play: seq<SetPlay>)
    requires cfg.bestOf >= 1 && s != [] && |play| == |s| - 1 && Transcript(play) == s[..|s| - 1]
    requires forall i :: 0 <= i < |play| ==> LegalSet(play[i], TiebreakDecides(cfg, i + 1))
    requires Counted(cfg, s, SetVerdicts(cfg, s, c), [], |s| - 1).violations == []
    ensures var n, ws := |s| - 1, Map(WinnerOf, play);
            && (forall i :: 0 <= i < n ==> !OverAt(ws[..i], MatchRule(cfg)))
            && Counted(cfg, s, SetVerdicts(cfg, s, c), [], n).decidedAfter == if OverAt(ws, MatchRule(cfg)) then n else 0
  {
    var n, vs, ws := |s| - 1, SetVerdicts(cfg, s, c), Map(WinnerOf, play);
    PrefixComplete(cfg, s, c, play);
    TallyOfPrefix(cfg, s, vs, n, n);
    NoSetAfterTheEnd(cfg, s[..n], vs[..n], ws, n);
    CountedIsScore(cfg, s[..n], vs[..n], ws, n);
    assert ws[..n] == ws;
  }

  /** Once the match is decided no set is counted. */
  lemma {:induction false} LateSet(cfg: Config, t: Tally, st: SetScore, v: SetVerdict, n: int)
    requires t.decidedAfter > 0 && CountSet(cfg, t, st, v, n).violations == []
    ensures CountSet(cfg, t, st, v, n).decidedAfter == t.decidedAfter
  {
  }

  /** The match was still on before its last set. */
  lemma {:induction false} StillOnBefore(cfg: Config, s: seq<SetScore>, c: Completion, play: seq<SetPlay>)
    requires cfg.bestOf >= 1 && s != [] && |play| == |s| - 1 && Transcript(play) == s[..|s| - 1]
    requires forall i :: 0 <= i < |play| ==> LegalSet(play[i], TiebreakDecides(cfg, i + 1))
    requires var t := Counted(cfg, s, SetVerdicts(cfg, s, c), [], |s|);
             t.violations == [] && (t.decidedAfter == 0 || t.decidedAfter >= |s|)
    requires Counted(cfg, s, SetVerdicts(cfg, s, c), [], |s| - 1).violations == []
    ensures StillOn(cfg, s[..|s| - 1], play)
  {
    TallyFromSets(cfg, s, c, play);
    NotDecidedBefore(cfg, s, SetVerdicts(cfg, s, c));
    NeverOver(cfg, Map(WinnerOf, play));
  }

  lemma {:induction false} NotDecidedBefore(cfg: Config, s: seq<SetScore>, vs: seq<SetVerdict>)
    requires s != [] && |vs| == |s| && Counted(cfg, s, vs, [], |s|).violations == []
    requires var d := Counted(cfg, s, vs, [], |s|).decidedAfter; d == 0 || d >= |s|
    requires 0 <= Counted(cfg, s, vs, [], |s| - 1).decidedAfter < |s|
    ensures Counted(cfg, s, vs, [], |s| - 1).decidedAfter == 0
  {
    var before := Counted(cfg, s, vs, [], |s| - 1);
    if before.decidedAfter > 0 { LateSet(cfg, before, s[|s| - 1], vs[|s| - 1], |s|); }
  }

  lemma {:induction false} NeverOver(cfg: Config, ws: seq<Side>)
    requires cfg.bestOf >= 1 && forall i :: 0 <= i < |ws| ==> !OverAt(ws[..i], MatchRule(cfg))
    requires ws == [] || !OverAt(ws, MatchRule(cfg))
    ensures forall i :: 0 <= i <= |ws| ==> !OverAt(ws[..i], MatchRule(cfg))
  {
    assert ws[..|ws|] == ws;
  }

  lemma {:induction false} OrderedPartial(cfg: Config, s: seq<SetScore>, c: Completion, w: int)
    requires cfg.bestOf >= 1 && cfg.bestOf % 2 == 1 && c in {Incomplete, Retired, Cancelled} && s != []
    ensures JudgeOrdered(cfg, s, c, w).Accepted? <==> WinnerRules(c, w) == [] && PartlyPlayed(cfg, s, c)
  {
    if JudgeOrdered(cfg, s, c, w).Accepted? {
      AcceptedParts(cfg, s, c, w);
      AcceptedIsPartlyPlayed(cfg, s, c, w);
    }
    if WinnerRules(c, w) == [] && PartlyPlayed(cfg, s, c) {
      var play :| PlayedUntil(cfg, s, c, play);
      PartlyPlayedAccepted(cfg, s, c, w, play);
    }
  }

  lemma {:induction false} NoSets(cfg: Config, c: Completion, w: int)
    requires cfg.bestOf >= 1 && c in {Incomplete, Retired, Cancelled}
    ensures JudgeOrdered(cfg, [], c, w).Accepted? <==> c == Cancelled && w == 0
  {
    assert Misnumbered([], 0) == 0;
  }

  /** A score in progress, a retirement or a cancellation is accepted exactly when the winner is
      named as the completion asks, and its sets, put in number order, are the score of a match
      up to some point; a cancelled match may also have none. */
  lemma {:induction false} PartialScoresAre(cfg: Config, sets: seq<SetScore>, c: Completion, winnerSlot: int)
    requires cfg.bestOf >= 1 && cfg.bestOf % 2 == 1 && c in {Incomplete, Retired, Cancelled}
    ensures Judge(cfg, sets, c, winnerSlot).Accepted? <==>
              && (if c == Retired then winnerSlot == 1 || winnerSlot == 2 else winnerSlot == 0)
              && ((sets == [] && c == Cancelled) || PartlyPlayed(cfg, SortSets(sets), c))
  {
    SameLength(SortSets(sets), sets);
    if SortSets(sets) == [] { NoSets(cfg, c, winnerSlot); } else { OrderedPartial(cfg, SortSets(sets), c, winnerSlot); }
  }

  /** Sets that leave the match undecided are refused as a match played out. */
  lemma {:induction false} UndecidedRefused(cfg: Config, sets: seq<SetScore>, play: seq<SetPlay>)
    requires cfg.bestOf >= 1 && cfg.bestOf % 2 == 1 && 1 <= |SortSets(sets)| <= cfg.bestOf
    requires StillOn(cfg, SortSets(sets), play)
    ensures Judge(cfg, sets, Normal, 0) == Refused([Violation(0, SetsUnfinished)])
  {
    var s, ws := SortSets(sets), Map(WinnerOf, play);
    LegalSetsComplete(cfg, play, Normal);
    CountedIsScore(cfg, s, SetVerdicts(cfg, s, Normal), ws, |s|);
    assert ws[..|s|] == ws;
    JudgeByTally(cfg, s, Normal);
  }

  /** Sets that decide the match are refused as a score in progress. */
  lemma {:induction false} DecidedRefused(cfg: Config, sets: seq<SetScore>, play: seq<SetPlay>)
    requires cfg.bestOf >= 1 && cfg.bestOf % 2 == 1 && PlayedAs(cfg, SortSets(sets), play)
    ensures Judge(cfg, sets, Incomplete, 0) == Refused([Violation(0, CompletionDecided)])
  {
    var s, ws := SortSets(sets), Map(WinnerOf, play);
    LegalSetsComplete(cfg, play, Incomplete);
    SetsFitBestOf(cfg, ws);
    CountedIsScore(cfg, s, SetVerdicts(cfg, s, Incomplete), ws, |s|);
    assert ws[..|s|] == ws;
    JudgeByTally(cfg, s, Incomplete);
  }
}
