/** Which submitted scores are legal (match/scoring.go): the verdict as a function of the sets
    in number order, the loops that compute it, and what does not change it: the order of
    submission, ties between equal numbers, the sides. */
module Scoring {
  import opened Seqs
  import opened Wrappers

  /** One set: its number, the games of both sides, the tie-break points if any. */
  datatype SetScore = SetScore(number: int, games1: int, games2: int, tb1: Option<int>, tb2: Option<int>)

  /** A division's scoring: best of how many sets, and whether the deciding set is
      a 10-point match tie-break. */
  datatype Config = Config(bestOf: int, matchTiebreak: bool)

  datatype Completion = Incomplete | Normal | Walkover | Retired | Cancelled | Unknown

  datatype Status =
    | Pending | Scheduled | Live
    | Completed | WalkedOver | RetiredFrom | Voided
    | Bye

  datatype Rule =
    | CompletionInvalid | WinnerRequired | WinnerForbidden
    | SetsWalkover | SetsRequired | SetsNumbering | SetsTooMany | SetsAfterDecided | SetsUnfinished
    | CompletionDecided
    | SetNegative | DeciderTiebreakFields | DeciderIllegal
    | TiebreakUnexpected | TiebreakRequired | TiebreakIllegal | TiebreakWinnerMismatch | SetIllegal

  /** setNo is 0 when the violation is not about one set. */
  datatype Violation = Violation(setNo: int, rule: Rule)

  /** Accepted with the winning slot (0 for none) and the match's new status, or
      refused with every violation found. */
  datatype Verdict = Accepted(winner: int, status: Status) | Refused(violations: seq<Violation>)

  function StatusFor(c: Completion): Status {
    match c
    case Normal => Completed
    case Walkover => WalkedOver
    case Retired => RetiredFrom
    case Cancelled => Voided
    case _ => Live
  }

  /** The match is over as far as progression goes. */
  predicate Decided(s: Status) {
    s == Completed || s == WalkedOver || s == RetiredFrom || s == Voided || s == Bye
  }

  /** A result that counts toward the standings. */
  predicate Counts(s: Status) {
    s == Completed || s == WalkedOver || s == RetiredFrom
  }

  // One set

  /** Winner side (0: none), whether the set is complete, and the violation if any. */
  datatype SetVerdict = SetVerdict(winner: int, complete: bool, rule: Option<Rule>)

  function Breach(r: Rule): SetVerdict {
    SetVerdict(0, false, Some(r))
  }

  const PARTIAL := SetVerdict(0, false, None)

  function Max(a: int, b: int): int {
    if a > b then a else b
  }

  function Min(a: int, b: int): int {
    if a > b then b else a
  }

  /** Won at target points or more with a two-point lead, exactly two beyond it. */
  predicate RaceScore(hi: int, lo: int, target: int) {
    hi >= target && hi - lo >= 2 && (hi == target || hi - lo == 2)
  }

  function ValidateSet(st: SetScore, isDecider: bool, allowPartial: bool): SetVerdict {
    var a, b := st.games1, st.games2;
    var hi, lo := Max(a, b), Min(a, b);
    var side := if b > a then 2 else 1;
    if a < 0 || b < 0 || (st.tb1.Some? && st.tb1.value < 0) || (st.tb2.Some? && st.tb2.value < 0) then
      Breach(SetNegative)
    else if isDecider then
      if st.tb1.Some? || st.tb2.Some? then Breach(DeciderTiebreakFields)
      else if RaceScore(hi, lo, 10) then SetVerdict(if a > b then 1 else 2, true, None)
      else if allowPartial then PARTIAL
      else Breach(DeciderIllegal)
    else if (hi == 6 && lo <= 4) || (hi == 7 && lo == 5) then
      if st.tb1.Some? || st.tb2.Some? then Breach(TiebreakUnexpected) else SetVerdict(side, true, None)
    else if hi == 7 && lo == 6 then
      if st.tb1.None? || st.tb2.None? then
        if allowPartial then PARTIAL else Breach(TiebreakRequired)
      else
        var ta, tb := st.tb1.value, st.tb2.value;
        if !RaceScore(Max(ta, tb), Min(ta, tb), 7) then Breach(TiebreakIllegal)
        else if (if tb > ta then 2 else 1) != side then Breach(TiebreakWinnerMismatch)
        else SetVerdict(side, true, None)
    else if allowPartial && hi <= 6 then PARTIAL // the shapes left at 6 games are 6-5 and 6-6
    else Breach(SetIllegal)
  }

  // A whole submission

  /** The running state of ValidateScore's loop over the ordered sets. */
  datatype Tally = Tally(won1: int, won2: int, decidedAfter: int, violations: seq<Violation>)

  predicate IsDecider(cfg: Config, setNo: int) {
    cfg.matchTiebreak && cfg.bestOf > 1 && setNo == cfg.bestOf
  }

  function SetsToWin(cfg: Config): int {
    cfg.bestOf / 2 + 1
  }

  /** The verdict on each set; only the last of an abnormal result may be partial. */
  function SetVerdicts(cfg: Config, ordered: seq<SetScore>, c: Completion): (r: seq<SetVerdict>)
    ensures |r| == |ordered|
  {
    seq(|ordered|, i requires 0 <= i < |ordered| =>
      ValidateSet(ordered[i], IsDecider(cfg, i + 1), i == |ordered| - 1 && c != Normal))
  }

  function CountSet(cfg: Config, t: Tally, st: SetScore, v: SetVerdict, setNo: int): Tally {
    var found := t.violations + (if v.rule.Some? then [Violation(setNo, v.rule.value)] else []);
    if t.decidedAfter > 0 && (v.complete || st.games1 > 0 || st.games2 > 0) then
      t.(violations := found + [Violation(setNo, SetsAfterDecided)])
    else if v.complete then
      var won1 := if v.winner == 1 then t.won1 + 1 else t.won1;
      var won2 := if v.winner == 1 then t.won2 else t.won2 + 1;
      Tally(won1, won2,
            if t.decidedAfter == 0 && (won1 == SetsToWin(cfg) || won2 == SetsToWin(cfg)) then setNo else t.decidedAfter,
            found)
    else
      t.(violations := found)
  }

  function Counted(cfg: Config, ordered: seq<SetScore>, vs: seq<SetVerdict>, start: seq<Violation>, n: nat): Tally
    requires |vs| == |ordered| && n <= |ordered|
  {
    if n == 0 then Tally(0, 0, 0, start)
    else CountSet(cfg, Counted(cfg, ordered, vs, start, n - 1), ordered[n - 1], vs[n - 1], n)
  }

  function WinnerRules(c: Completion, winnerSlot: int): seq<Violation> {
    if c == Walkover || c == Retired then
      if winnerSlot != 1 && winnerSlot != 2 then [Violation(0, WinnerRequired)] else []
    else
      if winnerSlot != 0 then [Violation(0, WinnerForbidden)] else []
  }

  /** The first set out of number order, or |ordered|. */
  function Misnumbered(ordered: seq<SetScore>, from: nat): (i: nat)
    requires from <= |ordered|
    ensures from <= i <= |ordered|
    ensures forall j :: from <= j < i ==> ordered[j].number == j + 1
    ensures i < |ordered| ==> ordered[i].number != i + 1
    decreases |ordered| - from
  {
    if from == |ordered| || ordered[from].number != from + 1 then from else Misnumbered(ordered, from + 1)
  }

  /** The verdict on sets already in number order. */
  function JudgeOrdered(cfg: Config, ordered: seq<SetScore>, c: Completion, winnerSlot: int): Verdict {
    var v := WinnerRules(c, winnerSlot);
    if c == Unknown then Refused([Violation(0, CompletionInvalid)])
    else if c == Walkover then
      var w := v + (if |ordered| > 0 then [Violation(0, SetsWalkover)] else []);
      if w != [] then Refused(w) else Accepted(winnerSlot, StatusFor(c))
    else if |ordered| == 0 && c != Cancelled then Refused(v + [Violation(0, SetsRequired)])
    else
      var bad := Misnumbered(ordered, 0);
      if bad < |ordered| then Refused(v + [Violation(ordered[bad].number, SetsNumbering)])
      else if |ordered| > cfg.bestOf then Refused(v + [Violation(0, SetsTooMany)])
      else Conclude(Counted(cfg, ordered, SetVerdicts(cfg, ordered, c), v, |ordered|), |ordered|, c, winnerSlot)
  }

  function Conclude(t: Tally, n: nat, c: Completion, winnerSlot: int): Verdict {
    if t.violations != [] then Refused(t.violations)
    else if c == Normal then
      if t.decidedAfter == 0 then Refused([Violation(0, SetsUnfinished)])
      else Accepted(if t.won2 > t.won1 then 2 else 1, StatusFor(c))
    else if 0 < t.decidedAfter < n then Refused([Violation(0, SetsAfterDecided)])
    else if c == Incomplete && t.decidedAfter > 0 then Refused([Violation(0, CompletionDecided)])
    else Accepted(winnerSlot, StatusFor(c))
  }

  // The order of submission

  predicate InNumberOrder(s: seq<SetScore>) {
    forall i, j :: 0 <= i < j < |s| ==> s[i].number <= s[j].number
  }

  function Insert(st: SetScore, s: seq<SetScore>): (r: seq<SetScore>)
    requires InNumberOrder(s)
    ensures InNumberOrder(r)
    ensures multiset(r) == multiset(s) + multiset{st}
    ensures forall x :: x in r ==> x == st || x in s
  {
    if s == [] then [st]
    else
      var n := |s| - 1;
      assert s == s[..n] + [s[n]];
      if s[n].number <= st.number then s + [st]
      else
        var rest := Insert(st, s[..n]);
        LastInOrder(rest, s[n]);
        rest + [s[n]]
  }

  lemma LastInOrder(rest: seq<SetScore>, last: SetScore)
    requires InNumberOrder(rest) && forall x :: x in rest ==> x.number <= last.number
    ensures InNumberOrder(rest + [last])
  {
    assert forall i :: 0 <= i < |rest| ==> rest[i] in rest;
  }

  function SortSets(sets: seq<SetScore>): (r: seq<SetScore>)
    ensures InNumberOrder(r) && multiset(r) == multiset(sets)
  {
    if sets == [] then []
    else
      var n := |sets| - 1;
      assert sets == sets[..n] + [sets[n]];
      Insert(sets[n], SortSets(sets[..n]))
  }

  function Judge(cfg: Config, sets: seq<SetScore>, c: Completion, winnerSlot: int): Verdict {
    JudgeOrdered(cfg, SortSets(sets), c, winnerSlot)
  }

  /** sort.Slice promises order and the same elements, nothing about ties. */
  method SortSlice(sets: seq<SetScore>) returns (ordered: seq<SetScore>)
    ensures InNumberOrder(ordered) && multiset(ordered) == multiset(sets)
  {
    ordered := [];
    for i := 0 to |sets|
      invariant InNumberOrder(ordered) && multiset(ordered) == multiset(sets[..i])
    {
      assert sets[..i + 1] == sets[..i] + [sets[i]];
      ordered := Insert(sets[i], ordered);
    }
    assert sets[..|sets|] == sets;
  }

  method ValidateScore(cfg: Config, sets: seq<SetScore>, c: Completion, winnerSlot: int) returns (r: Verdict)
    ensures r == Judge(cfg, sets, c, winnerSlot)
  {
    if c == Unknown {
      return Refused([Violation(0, CompletionInvalid)]);
    }
    var v := [];
    if c == Walkover || c == Retired {
      if winnerSlot != 1 && winnerSlot != 2 {
        v := v + [Violation(0, WinnerRequired)];
      }
    } else if winnerSlot != 0 {
      v := v + [Violation(0, WinnerForbidden)];
    }
    if c == Walkover || (|sets| == 0 && c != Cancelled) {
      r := ValidateUnplayed(cfg, sets, c, winnerSlot, v);
      return;
    }
    r := ValidatePlayed(cfg, sets, c, winnerSlot, v);
  }

  /** ValidateScore for a walkover, or when sets are missing. */
  method ValidateUnplayed(cfg: Config, sets: seq<SetScore>, c: Completion, winnerSlot: int, v: seq<Violation>)
    returns (r: Verdict)
    requires v == WinnerRules(c, winnerSlot) && c != Unknown && (c == Walkover || (|sets| == 0 && c != Cancelled))
    ensures r == Judge(cfg, sets, c, winnerSlot)
  {
    SameLength(SortSets(sets), sets);
    if c == Walkover {
      var all := if |sets| > 0 then v + [Violation(0, SetsWalkover)] else v;
      return if |all| > 0 then Refused(all) else Accepted(winnerSlot, StatusFor(c));
    }
    r := Refused(v + [Violation(0, SetsRequired)]);
  }

  /** ValidateScore from the sorted copy on. */
  method ValidatePlayed(cfg: Config, sets: seq<SetScore>, c: Completion, winnerSlot: int, v: seq<Violation>)
    returns (r: Verdict)
    requires v == WinnerRules(c, winnerSlot) && c != Unknown && c != Walkover && (|sets| > 0 || c == Cancelled)
    ensures r == Judge(cfg, sets, c, winnerSlot)
  {
    var ordered := SortSlice(sets);
    SameLength(ordered, sets);
    SortedVerdictUnique(cfg, ordered, SortSets(sets), c, winnerSlot);
    r := ValidateOrdered(cfg, ordered, c, winnerSlot, v);
  }

  /** ValidateScore from the numbering check on. */
  method ValidateOrdered(cfg: Config, ordered: seq<SetScore>, c: Completion, winnerSlot: int, v: seq<Violation>)
    returns (r: Verdict)
    requires v == WinnerRules(c, winnerSlot) && c != Unknown && c != Walkover && (|ordered| > 0 || c == Cancelled)
    ensures r == JudgeOrdered(cfg, ordered, c, winnerSlot)
  {
    var i := 0;
    while i < |ordered|
      invariant 0 <= i <= |ordered|
      invariant Misnumbered(ordered, 0) == Misnumbered(ordered, i)
    {
      if ordered[i].number != i + 1 {
        return Refused(v + [Violation(ordered[i].number, SetsNumbering)]);
      }
      i := i + 1;
    }
    if |ordered| > cfg.bestOf {
      return Refused(v + [Violation(0, SetsTooMany)]);
    }
    var t := CountSets(cfg, ordered, c, v);
    r := Conclude(t, |ordered|, c, winnerSlot);
  }

  /** The loop of ValidateScore over the sets in order. */
  method CountSets(cfg: Config, ordered: seq<SetScore>, c: Completion, start: seq<Violation>) returns (t: Tally)
    ensures t == Counted(cfg, ordered, SetVerdicts(cfg, ordered, c), start, |ordered|)
  {
    var v := start;
    var won1, won2, decidedAfter := 0, 0, 0;
    ghost var vs := SetVerdicts(cfg, ordered, c);
    for idx := 0 to |ordered|
      invariant Counted(cfg, ordered, vs, start, idx) == Tally(won1, won2, decidedAfter, v)
    {
      var st, setNo := ordered[idx], idx + 1;
      var isDecider := cfg.matchTiebreak && cfg.bestOf > 1 && setNo == cfg.bestOf;
      var allowPartial := idx == |ordered| - 1 && c != Normal;
      var sv := ValidateSet(st, isDecider, allowPartial);
      assert sv == vs[idx];
      won1, won2, decidedAfter, v := CountOne(cfg, st, sv, setNo, won1, won2, decidedAfter, v);
    }
    t := Tally(won1, won2, decidedAfter, v);
  }

  /** The rest of the loop body: what one set's verdict adds. */
  method CountOne(cfg: Config, st: SetScore, sv: SetVerdict, setNo: int, w1: int, w2: int, decided: int, found: seq<Violation>)
    returns (won1: int, won2: int, decidedAfter: int, v: seq<Violation>)
    ensures Tally(won1, won2, decidedAfter, v) == CountSet(cfg, Tally(w1, w2, decided, found), st, sv, setNo)
  {
    won1, won2, decidedAfter, v := w1, w2, decided, found;
    if sv.rule.Some? {
      v := v + [Violation(setNo, sv.rule.value)];
    }
    if decidedAfter > 0 && (sv.complete || st.games1 > 0 || st.games2 > 0) {
      v := v + [Violation(setNo, SetsAfterDecided)];
      return;
    }
    if sv.complete {
      if sv.winner == 1 {
        won1 := won1 + 1;
      } else {
        won2 := won2 + 1;
      }
      if decidedAfter == 0 && (won1 == SetsToWin(cfg) || won2 == SetsToWin(cfg)) {
        decidedAfter := setNo;
      }
    }
  }

  function Number(st: SetScore): int {
    st.number
  }

  /** However ties are broken, the verdict is the same: a tie is a misnumbering. */
  lemma SortedVerdictUnique(cfg: Config, a: seq<SetScore>, b: seq<SetScore>, c: Completion, winnerSlot: int)
    requires InNumberOrder(a) && InNumberOrder(b) && multiset(a) == multiset(b)
    ensures JudgeOrdered(cfg, a, c, winnerSlot) == JudgeOrdered(cfg, b, c, winnerSlot)
  {
    SameNumbers(a, b);
    SameMisnumbering(a, b, 0);
    if Misnumbered(a, 0) == |a| {
      NumberedFromOne(a, b);
    }
  }

  lemma SameNumbers(a: seq<SetScore>, b: seq<SetScore>)
    requires InNumberOrder(a) && InNumberOrder(b) && multiset(a) == multiset(b)
    ensures |a| == |b| && forall i :: 0 <= i < |a| ==> a[i].number == b[i].number
  {
    MapMultiset(Number, a, b);
    SortedIntsUnique(Map(Number, a), Map(Number, b));
    assert forall i :: 0 <= i < |a| ==> a[i].number == Map(Number, a)[i];
  }

  lemma {:induction false} SameMisnumbering(a: seq<SetScore>, b: seq<SetScore>, from: nat)
    requires |a| == |b| && forall i :: 0 <= i < |a| ==> a[i].number == b[i].number
    requires from <= |a|
    ensures Misnumbered(a, from) == Misnumbered(b, from)
    decreases |a| - from
  {
    if from < |a| {
      SameMisnumbering(a, b, from + 1);
    }
  }

  lemma NumberedFromOne(a: seq<SetScore>, b: seq<SetScore>)
    requires multiset(a) == multiset(b) && |a| == |b|
    requires forall i :: 0 <= i < |a| ==> a[i].number == b[i].number == i + 1
    ensures a == b
  {
    forall i | 0 <= i < |a|
      ensures a[i] == b[i]
    {
      assert a[i] in multiset(b);
      var j :| 0 <= j < |b| && b[j] == a[i];
    }
  }

  /** The verdict does not depend on the order the sets are submitted in. */
  lemma OrderIrrelevant(cfg: Config, s1: seq<SetScore>, s2: seq<SetScore>, c: Completion, winnerSlot: int)
    requires multiset(s1) == multiset(s2)
    ensures Judge(cfg, s1, c, winnerSlot) == Judge(cfg, s2, c, winnerSlot)
  {
    SortedVerdictUnique(cfg, SortSets(s1), SortSets(s2), c, winnerSlot);
  }

  // Swapping the sides

  function Swap(st: SetScore): SetScore {
    SetScore(st.number, st.games2, st.games1, st.tb2, st.tb1)
  }

  function SwapAll(s: seq<SetScore>): (r: seq<SetScore>) {
    Map(Swap, s)
  }

  function OtherSlot(slot: int): int {
    if slot == 1 then 2 else if slot == 2 then 1 else slot
  }

  function SwapVerdict(v: Verdict): Verdict {
    if v.Accepted? then v.(winner := OtherSlot(v.winner)) else v
  }

  lemma ValidateSetSwaps(st: SetScore, isDecider: bool, allowPartial: bool)
    ensures var v := ValidateSet(st, isDecider, allowPartial);
            ValidateSet(Swap(st), isDecider, allowPartial) == v.(winner := OtherSlot(v.winner))
    ensures ValidateSet(st, isDecider, allowPartial).complete ==> ValidateSet(st, isDecider, allowPartial).winner in {1, 2}
  {
  }

  lemma {:induction false} CountedSwaps(cfg: Config, s: seq<SetScore>, vs: seq<SetVerdict>, ws: seq<SetVerdict>, start: seq<Violation>, n: nat)
    requires |vs| == |ws| == |s| && n <= |s|
    requires forall i :: 0 <= i < |s| ==> ws[i] == vs[i].(winner := OtherSlot(vs[i].winner))
    requires forall i :: 0 <= i < |s| && vs[i].complete ==> vs[i].winner in {1, 2}
    ensures Counted(cfg, SwapAll(s), ws, start, n) == SwapTally(Counted(cfg, s, vs, start, n))
  {
    if n > 0 {
      CountedSwaps(cfg, s, vs, ws, start, n - 1);
      CountSetSwaps(cfg, Counted(cfg, s, vs, start, n - 1), s[n - 1], vs[n - 1], n);
    }
  }

  function SwapTally(t: Tally): Tally {
    t.(won1 := t.won2, won2 := t.won1)
  }

  lemma CountSetSwaps(cfg: Config, t: Tally, st: SetScore, v: SetVerdict, setNo: int)
    requires v.complete ==> v.winner in {1, 2}
    ensures CountSet(cfg, SwapTally(t), Swap(st), v.(winner := OtherSlot(v.winner)), setNo)
         == SwapTally(CountSet(cfg, t, st, v, setNo))
  {
  }

  /** The tally is decided exactly when one side has its sets, and then only one. */
  lemma {:induction false} DecidedIsWon(cfg: Config, s: seq<SetScore>, vs: seq<SetVerdict>, start: seq<Violation>, n: nat)
    requires |vs| == |s| && n <= |s| && cfg.bestOf >= 1
    ensures var t := Counted(cfg, s, vs, start, n);
            && t.won1 >= 0 && t.won2 >= 0 && 0 <= t.decidedAfter <= n
            && (t.decidedAfter == 0 ==> t.won1 < SetsToWin(cfg) && t.won2 < SetsToWin(cfg))
            && (t.decidedAfter != 0 ==>
                  || (t.won1 == SetsToWin(cfg) && t.won2 < SetsToWin(cfg))
                  || (t.won2 == SetsToWin(cfg) && t.won1 < SetsToWin(cfg)))
  {
    if n > 0 {
      DecidedIsWon(cfg, s, vs, start, n - 1);
    }
  }

  lemma SetVerdictsSwap(cfg: Config, s: seq<SetScore>, c: Completion)
    ensures var vs, ws := SetVerdicts(cfg, s, c), SetVerdicts(cfg, SwapAll(s), c);
            forall i :: 0 <= i < |s| ==>
              ws[i] == vs[i].(winner := OtherSlot(vs[i].winner)) && (vs[i].complete ==> vs[i].winner in {1, 2})
  {
    forall i | 0 <= i < |s| {
      ValidateSetSwaps(s[i], IsDecider(cfg, i + 1), i == |s| - 1 && c != Normal);
    }
  }

  lemma SidesSymmetricOrdered(cfg: Config, s: seq<SetScore>, c: Completion, winnerSlot: int)
    ensures JudgeOrdered(cfg, SwapAll(s), c, OtherSlot(winnerSlot)) == SwapVerdict(JudgeOrdered(cfg, s, c, winnerSlot))
  {
    assert WinnerRules(c, OtherSlot(winnerSlot)) == WinnerRules(c, winnerSlot);
    if c != Unknown && c != Walkover && (|s| > 0 || c == Cancelled) {
      PlayedSymmetric(cfg, s, c, winnerSlot);
    }
  }

  lemma PlayedSymmetric(cfg: Config, s: seq<SetScore>, c: Completion, winnerSlot: int)
    requires c != Unknown && c != Walkover && (|s| > 0 || c == Cancelled)
    ensures JudgeOrdered(cfg, SwapAll(s), c, OtherSlot(winnerSlot)) == SwapVerdict(JudgeOrdered(cfg, s, c, winnerSlot))
  {
    assert WinnerRules(c, OtherSlot(winnerSlot)) == WinnerRules(c, winnerSlot);
    SameMisnumbering(s, SwapAll(s), 0);
    if Misnumbered(s, 0) == |s| && |s| <= cfg.bestOf { CountingSymmetric(cfg, s, c, winnerSlot); }
  }

  lemma CountingSymmetric(cfg: Config, s: seq<SetScore>, c: Completion, winnerSlot: int)
    requires |s| <= cfg.bestOf && (|s| > 0 || c == Cancelled)
    ensures var v := WinnerRules(c, winnerSlot);
            && Conclude(Counted(cfg, SwapAll(s), SetVerdicts(cfg, SwapAll(s), c), v, |s|), |s|, c, OtherSlot(winnerSlot))
            == SwapVerdict(Conclude(Counted(cfg, s, SetVerdicts(cfg, s, c), v, |s|), |s|, c, winnerSlot))
  {
    var v := WinnerRules(c, winnerSlot);
    SetVerdictsSwap(cfg, s, c);
    CountedSwaps(cfg, s, SetVerdicts(cfg, s, c), SetVerdicts(cfg, SwapAll(s), c), v, |s|);
    if |s| > 0 {
      DecidedIsWon(cfg, s, SetVerdicts(cfg, s, c), v, |s|);
    }
  }

  /** Swapping the two sides swaps the winner and changes nothing else. */
  lemma SidesSymmetric(cfg: Config, sets: seq<SetScore>, c: Completion, winnerSlot: int)
    ensures Judge(cfg, SwapAll(sets), c, OtherSlot(winnerSlot)) == SwapVerdict(Judge(cfg, sets, c, winnerSlot))
  {
    MapMultiset(Swap, SortSets(sets), sets);
    SortedVerdictUnique(cfg, SortSets(SwapAll(sets)), SwapAll(SortSets(sets)), c, OtherSlot(winnerSlot));
    SidesSymmetricOrdered(cfg, SortSets(sets), c, winnerSlot);
  }

  /** What the progression machine relies on. */
  predicate Sound(v: Verdict, sets: seq<SetScore>) {
    v.Accepted? ==>
      && 0 <= v.winner <= 2 && (v.winner != 0 <==> Counts(v.status))
      && (v.status == Live || v.status == Voided || Counts(v.status))
      && (v.status == Live ==> sets != [])
  }

  /** An accepted score is sound, and has the status of its completion. */
  lemma AcceptedShape(cfg: Config, sets: seq<SetScore>, c: Completion, winnerSlot: int)
    ensures var v := Judge(cfg, sets, c, winnerSlot);
            Sound(v, sets) && (v.Accepted? ==> v.status == StatusFor(c) && c != Unknown)
  {
    SameLength(SortSets(sets), sets);
    OrderedShape(cfg, SortSets(sets), c, winnerSlot);
  }

  lemma OrderedShape(cfg: Config, ordered: seq<SetScore>, c: Completion, winnerSlot: int)
    ensures var v := JudgeOrdered(cfg, ordered, c, winnerSlot);
            Sound(v, ordered) && (v.Accepted? ==> v.status == StatusFor(c) && c != Unknown)
  {
    if c != Walkover && c != Unknown {
      var t := Counted(cfg, ordered, SetVerdicts(cfg, ordered, c), WinnerRules(c, winnerSlot), |ordered|);
      StartKept(cfg, ordered, SetVerdicts(cfg, ordered, c), WinnerRules(c, winnerSlot), |ordered|);
      ConcludeShape(t, |ordered|, c, winnerSlot);
    }
  }

  lemma ConcludeShape(t: Tally, n: nat, c: Completion, winnerSlot: int)
    requires WinnerRules(c, winnerSlot) <= t.violations && c != Walkover && c != Unknown
    ensures var v := Conclude(t, n, c, winnerSlot);
            v.Accepted? ==>
              && v.status == StatusFor(c) && 0 <= v.winner <= 2
              && (v.winner != 0 <==> v.status == Completed || v.status == RetiredFrom)
  {
  }

  /** Violations are never dropped. */
  lemma {:induction false} StartKept(cfg: Config, s: seq<SetScore>, vs: seq<SetVerdict>, start: seq<Violation>, n: nat)
    requires |vs| == |s| && n <= |s|
    ensures start <= Counted(cfg, s, vs, start, n).violations
  {
    if n > 0 {
      StartKept(cfg, s, vs, start, n - 1);
    }
  }

  /** What each completion is accepted as: the named winner of a walkover or a retirement,
      one of the two sides for a match played out, nobody otherwise. */
  lemma AcceptedResult(cfg: Config, sets: seq<SetScore>, c: Completion, winnerSlot: int)
    ensures var v := Judge(cfg, sets, c, winnerSlot);
            v.Accepted? ==>
              && (winnerSlot == 1 || winnerSlot == 2 <==> c == Walkover || c == Retired)
              && (winnerSlot == 0 <==> c == Incomplete || c == Normal || c == Cancelled)
              && (c == Walkover ==> v == Accepted(winnerSlot, WalkedOver))
              && (c == Retired ==> v == Accepted(winnerSlot, RetiredFrom))
              && (c == Normal ==> v == Accepted(1, Completed) || v == Accepted(2, Completed))
              && (c == Incomplete ==> v == Accepted(0, Live))
              && (c == Cancelled ==> v == Accepted(0, Voided))
  {
    OrderedResult(cfg, SortSets(sets), c, winnerSlot);
  }

  lemma OrderedResult(cfg: Config, ordered: seq<SetScore>, c: Completion, winnerSlot: int)
    ensures var v := JudgeOrdered(cfg, ordered, c, winnerSlot);
            v.Accepted? ==>
              && (winnerSlot == 1 || winnerSlot == 2 <==> c == Walkover || c == Retired)
              && (winnerSlot == 0 <==> c == Incomplete || c == Normal || c == Cancelled)
              && (c == Walkover ==> v == Accepted(winnerSlot, WalkedOver))
              && (c == Retired ==> v == Accepted(winnerSlot, RetiredFrom))
              && (c == Normal ==> v == Accepted(1, Completed) || v == Accepted(2, Completed))
              && (c == Incomplete ==> v == Accepted(0, Live))
              && (c == Cancelled ==> v == Accepted(0, Voided))
  {
    if c != Walkover && c != Unknown {
      StartKept(cfg, ordered, SetVerdicts(cfg, ordered, c), WinnerRules(c, winnerSlot), |ordered|);
    }
  }

  /** A walkover is accepted exactly for a named side and without sets. */
  lemma WalkoverIff(cfg: Config, sets: seq<SetScore>, winnerSlot: int)
    ensures Judge(cfg, sets, Walkover, winnerSlot).Accepted? <==> sets == [] && (winnerSlot == 1 || winnerSlot == 2)
  {
    SameLength(SortSets(sets), sets);
  }

  // Every refusal, by hand

  /** First to n points with a lead of two, by two exactly beyond n. */
  predicate RacedTo(x: int, y: int, n: int) {
    (x == n && y <= n - 2) || (y == n && x <= n - 2) || (x > n && x == y + 2) || (y > n && y == x + 2)
  }

  /** Six games to four or less, or seven to five. */
  predicate WonStraight(x: int, y: int) {
    (x == 6 && y <= 4) || (y == 6 && x <= 4) || (x == 7 && y == 5) || (x == 5 && y == 7)
  }

  predicate SevenSix(x: int, y: int) {
    (x == 7 && y == 6) || (x == 6 && y == 7)
  }

  /** Which rule a set breaks. */
  lemma SetRules(st: SetScore, decider: bool, allowPartial: bool)
    ensures var r, a, b, x, y := ValidateSet(st, decider, allowPartial).rule, st.games1, st.games2, st.tb1, st.tb2;
            var negative := a < 0 || b < 0 || (x.Some? && x.value < 0) || (y.Some? && y.value < 0);
            && (r == Some(SetNegative) <==> negative)
            && (r == Some(DeciderTiebreakFields) <==> !negative && decider && (x.Some? || y.Some?))
            && (r == Some(DeciderIllegal) <==> !negative && decider && x.None? && y.None? && !allowPartial && !RacedTo(a, b, 10))
            && (r == Some(TiebreakUnexpected) <==> !negative && !decider && WonStraight(a, b) && (x.Some? || y.Some?))
            && (r == Some(TiebreakRequired) <==> !negative && !decider && SevenSix(a, b) && (x.None? || y.None?) && !allowPartial)
            && (r == Some(TiebreakIllegal) <==>
                  !negative && !decider && SevenSix(a, b) && x.Some? && y.Some? && !RacedTo(x.value, y.value, 7))
            && (r == Some(TiebreakWinnerMismatch) <==>
                  && !negative && !decider && SevenSix(a, b) && x.Some? && y.Some? && RacedTo(x.value, y.value, 7)
                  && (x.value > y.value) != (a > b))
            && (r == Some(SetIllegal) <==>
                  !negative && !decider && !WonStraight(a, b) && !SevenSix(a, b) && !(allowPartial && a <= 6 && b <= 6))
            && (r.Some? ==> r.value in {SetNegative, DeciderTiebreakFields, DeciderIllegal, TiebreakUnexpected,
                                        TiebreakRequired, TiebreakIllegal, TiebreakWinnerMismatch, SetIllegal})
  {
  }

  /** Set i contributes the violation: the rule it breaks, or games played after the end. */
  predicate SetFault(cfg: Config, s: seq<SetScore>, vs: seq<SetVerdict>, i: nat, x: Violation)
    requires i < |s| == |vs|
  {
    && x.setNo == i + 1
    && (|| vs[i].rule == Some(x.rule)
        || (x.rule == SetsAfterDecided && Counted(cfg, s, vs, [], i).decidedAfter > 0
            && (vs[i].complete || s[i].games1 > 0 || s[i].games2 > 0)))
  }

  lemma {:induction false} SameDecision(cfg: Config, s: seq<SetScore>, vs: seq<SetVerdict>, start: seq<Violation>, n: nat)
    requires |vs| == |s| && n <= |s|
    ensures var t, u := Counted(cfg, s, vs, start, n), Counted(cfg, s, vs, [], n);
            t.won1 == u.won1 && t.won2 == u.won2 && t.decidedAfter == u.decidedAfter
  {
    if n > 0 { SameDecision(cfg, s, vs, start, n - 1); }
  }

  lemma OneSetListed(cfg: Config, t: Tally, st: SetScore, v: SetVerdict, n: int, x: Violation)
    ensures x in CountSet(cfg, t, st, v, n).violations <==>
              || x in t.violations
              || (x.setNo == n && v.rule == Some(x.rule))
              || (x == Violation(n, SetsAfterDecided) && t.decidedAfter > 0 && (v.complete || st.games1 > 0 || st.games2 > 0))
  {
  }

  /** Every violation of every set is reported, and no other. */
  lemma {:induction false} ViolationsListed(cfg: Config, s: seq<SetScore>, vs: seq<SetVerdict>, start: seq<Violation>, n: nat, x: Violation)
    requires |vs| == |s| && n <= |s|
    ensures x in Counted(cfg, s, vs, start, n).violations <==> x in start || exists i :: 0 <= i < n && SetFault(cfg, s, vs, i, x)
  {
    if n > 0 {
      ViolationsListed(cfg, s, vs, start, n - 1, x);
      SameDecision(cfg, s, vs, start, n - 1);
      OneSetListed(cfg, Counted(cfg, s, vs, start, n - 1), s[n - 1], vs[n - 1], n, x);
      if SetFault(cfg, s, vs, n - 1, x) { assert x in Counted(cfg, s, vs, start, n).violations; }
      if x in Counted(cfg, s, vs, start, n).violations && x !in Counted(cfg, s, vs, start, n - 1).violations {
        assert SetFault(cfg, s, vs, n - 1, x);
      }
    }
  }

  /** The violations found before any set is looked at. */
  function WinnerFault(c: Completion, winnerSlot: int): seq<Violation> {
    if c in {Walkover, Retired} && winnerSlot !in {1, 2} then [Violation(0, WinnerRequired)]
    else if c in {Incomplete, Normal, Cancelled, Unknown} && winnerSlot != 0 then [Violation(0, WinnerForbidden)]
    else []
  }

  /** The refusals that look at no score: an unknown completion, a walkover with sets, sets
      missing, each after a complaint about the winner. */
  lemma EarlyRefusals(cfg: Config, sets: seq<SetScore>, c: Completion, winnerSlot: int)
    ensures var v, fault := Judge(cfg, sets, c, winnerSlot), WinnerFault(c, winnerSlot);
            && (c == Unknown ==> v == Refused([Violation(0, CompletionInvalid)]))
            && (c == Walkover && sets != [] ==> v == Refused(fault + [Violation(0, SetsWalkover)]))
            && (c == Walkover && sets == [] && fault != [] ==> v == Refused(fault))
            && (c in {Incomplete, Normal, Retired} && sets == [] ==> v == Refused(fault + [Violation(0, SetsRequired)]))
  {
    SameLength(SortSets(sets), sets);
    EarlyInOrder(cfg, SortSets(sets), c, winnerSlot);
  }

  lemma EarlyInOrder(cfg: Config, s: seq<SetScore>, c: Completion, winnerSlot: int)
    ensures var v, fault := JudgeOrdered(cfg, s, c, winnerSlot), WinnerFault(c, winnerSlot);
            && (c == Unknown ==> v == Refused([Violation(0, CompletionInvalid)]))
            && (c == Walkover && s != [] ==> v == Refused(fault + [Violation(0, SetsWalkover)]))
            && (c == Walkover && s == [] && fault != [] ==> v == Refused(fault))
            && (c in {Incomplete, Normal, Retired} && s == [] ==> v == Refused(fault + [Violation(0, SetsRequired)]))
  {
  }

  /** And sets misnumbered, or too many. */
  lemma NumberingRefusals(cfg: Config, sets: seq<SetScore>, c: Completion, winnerSlot: int, i: nat)
    requires c in {Incomplete, Normal, Retired, Cancelled} && sets != []
    ensures var v, s, fault := Judge(cfg, sets, c, winnerSlot), SortSets(sets), WinnerFault(c, winnerSlot);
            && (i < |s| && s[i].number != i + 1 && (forall j :: 0 <= j < i ==> s[j].number == j + 1) ==>
                  v == Refused(fault + [Violation(s[i].number, SetsNumbering)]))
            && ((forall j :: 0 <= j < |s| ==> s[j].number == j + 1) && |s| > cfg.bestOf ==>
                  v == Refused(fault + [Violation(0, SetsTooMany)]))
  {
    SameLength(SortSets(sets), sets);
    OrderedRefusals(cfg, SortSets(sets), c, winnerSlot, i);
  }

  lemma OrderedRefusals(cfg: Config, s: seq<SetScore>, c: Completion, winnerSlot: int, i: nat)
    requires c in {Incomplete, Normal, Retired, Cancelled} && s != []
    ensures var v, fault := JudgeOrdered(cfg, s, c, winnerSlot), WinnerFault(c, winnerSlot);
            && (i < |s| && s[i].number != i + 1 && (forall j :: 0 <= j < i ==> s[j].number == j + 1) ==>
                  v == Refused(fault + [Violation(s[i].number, SetsNumbering)]))
            && ((forall j :: 0 <= j < |s| ==> s[j].number == j + 1) && |s| > cfg.bestOf ==>
                  v == Refused(fault + [Violation(0, SetsTooMany)]))
  {
    var bad := Misnumbered(s, 0);
    if i < |s| && s[i].number != i + 1 && forall j :: 0 <= j < i ==> s[j].number == j + 1 {
      assert bad == i;
    }
  }
}
