/** The bracket read model: rounds recovered from next references. */
module ReadModel {
  import opened Powers
  import opened Wrappers
  import opened Bracket
  import opened Tables
  import opened Progression
  import opened Coherence
  import opened Persist
  import opened Provenance
  import opened SingleElimination
  import opened GroupSetup
  import opened GroupKnockout

  datatype RoundName = Final | Semifinal | Quarterfinal | RoundOf(slots: nat)

  datatype Round = Round(number: int, name: RoundName, matches: seq<int>)

  /** Progression goes forward, so following it ends. */
  predicate NextForward(db: DB) {
    forall m :: 0 <= m < |db.matches| && db.matches[m].next.Some? ==> m < db.matches[m].next.value < |db.matches|
  }

  /** The matches a view lists: all of them, or those of the knockout stage. */
  predicate Shown(db: DB, ko: bool, m: nat)
    requires m < |db.matches|
  {
    ko ==> db.matches[m].group.None?
  }

  /** Length of the path from a match to the final, as far as it is listed. */
  function PathLength(db: DB, ko: bool, m: nat): nat
    requires NextForward(db) && m < |db.matches|
    decreases |db.matches| - m
  {
    if !Shown(db, ko, m) || db.matches[m].next.None? then 0 else 1 + PathLength(db, ko, db.matches[m].next.value)
  }

  function NameFor(fromFinal: nat): RoundName {
    if fromFinal == 0 then Final
    else if fromFinal == 1 then Semifinal
    else if fromFinal == 2 then Quarterfinal
    else RoundOf(Pow2(fromFinal + 1))
  }

  /** Listed matches below n that are h hops from the final, in order. */
  function AtDistance(db: DB, ko: bool, h: int, n: nat): seq<int>
    requires NextForward(db) && n <= |db.matches|
  {
    if n == 0 then []
    else
      var r := AtDistance(db, ko, h, n - 1);
      if Shown(db, ko, n - 1) && PathLength(db, ko, n - 1) == h then r + [n - 1] else r
  }

  function Longest(db: DB, ko: bool, n: nat): nat
    requires NextForward(db) && n <= |db.matches|
  {
    if n == 0 then 0
    else
      var l := Longest(db, ko, n - 1);
      if Shown(db, ko, n - 1) && PathLength(db, ko, n - 1) > l then PathLength(db, ko, n - 1) else l
  }

  function BracketRounds(db: DB, ko: bool): seq<Round>
    requires NextForward(db)
  {
    var maxHops := Longest(db, ko, |db.matches|);
    seq(maxHops + 1, i requires 0 <= i < maxHops + 1 =>
      Round(i + 1, NameFor(maxHops - i), AtDistance(db, ko, maxHops - i, |db.matches|)))
  }

  predicate NothingShown(db: DB, ko: bool) {
    forall m :: 0 <= m < |db.matches| ==> !Shown(db, ko, m)
  }

  ghost predicate MemoTrue(db: DB, ko: bool, memo: map<nat, nat>)
    requires NextForward(db)
  {
    forall m :: m in memo ==> m < |db.matches| && memo[m] == PathLength(db, ko, m)
  }

  ghost predicate MemoCovers(db: DB, ko: bool, memo: map<nat, nat>, n: nat)
    requires n <= |db.matches|
  {
    forall m :: 0 <= m < n && Shown(db, ko, m) ==> m in memo
  }

  /** The memoised recursion: the memo only ever holds true path lengths. */
  method Hops(db: DB, ko: bool, m: nat, memo: map<nat, nat>) returns (v: nat, memo': map<nat, nat>)
    requires NextForward(db) && m < |db.matches| && MemoTrue(db, ko, memo)
    ensures v == PathLength(db, ko, m) && MemoTrue(db, ko, memo')
    ensures m in memo' && forall x :: x in memo ==> x in memo'
    decreases |db.matches| - m
  {
    if m in memo {
      return memo[m], memo;
    }
    if !Shown(db, ko, m) || db.matches[m].next.None? {
      return 0, memo[m := 0];
    }
    v, memo' := Hops(db, ko, db.matches[m].next.value, memo);
    v := v + 1;
    memo' := memo'[m := v];
  }

  method GetBracket(db: DB) returns (rounds: seq<Round>)
    requires NextForward(db)
    ensures rounds == BracketRounds(db, false)
  {
    rounds := ReadRounds(db, false);
  }

  /** The knockout stage alone; no round at all while it has no match. */
  method KnockoutRounds(db: DB) returns (rounds: seq<Round>)
    requires NextForward(db)
    ensures rounds == if NothingShown(db, true) then [] else BracketRounds(db, true)
  {
    var empty := true;
    for m := 0 to |db.matches|
      invariant empty <==> forall i :: 0 <= i < m ==> !Shown(db, true, i)
    {
      if Shown(db, true, m) {
        empty := false;
      }
    }
    if empty {
      return [];
    }
    rounds := ReadRounds(db, true);
  }

  method ReadRounds(db: DB, ko: bool) returns (rounds: seq<Round>)
    requires NextForward(db)
    ensures rounds == BracketRounds(db, ko)
  {
    var roundOf, maxHops := Distances(db, ko);
    var roundsMap := GroupByRound(db, ko, roundOf, maxHops);
    rounds := [];
    for rn := 1 to maxHops + 2
      invariant |rounds| == rn - 1
      invariant forall i :: 0 <= i < rn - 1 ==> rounds[i] == BracketRounds(db, ko)[i]
    {
      var fromFinal := maxHops - rn + 1;
      var ms := At(roundsMap, rn);
      rounds := rounds + [Round(rn, NameFor(fromFinal), ms)];
    }
  }

  /** Hops of every listed match, and the most hops of all. */
  method Distances(db: DB, ko: bool) returns (roundOf: map<nat, nat>, maxHops: nat)
    requires NextForward(db)
    ensures MemoTrue(db, ko, roundOf) && MemoCovers(db, ko, roundOf, |db.matches|)
    ensures maxHops == Longest(db, ko, |db.matches|)
  {
    roundOf, maxHops := map[], 0;
    for m := 0 to |db.matches|
      invariant MemoTrue(db, ko, roundOf) && MemoCovers(db, ko, roundOf, m)
      invariant maxHops == Longest(db, ko, m)
    {
      if Shown(db, ko, m) {
        var h;
        h, roundOf := Hops(db, ko, m, roundOf);
        if h > maxHops {
          maxHops := h;
        }
      }
    }
  }

  function At(roundsMap: map<int, seq<int>>, rn: int): seq<int> {
    if rn in roundsMap then roundsMap[rn] else []
  }

  /** The listed matches below n, each under its round. */
  ghost predicate FiledBy(db: DB, ko: bool, roundsMap: map<int, seq<int>>, maxHops: nat, n: nat)
    requires NextForward(db) && n <= |db.matches|
  {
    forall rn :: At(roundsMap, rn) == AtDistance(db, ko, maxHops - rn + 1, n)
  }

  lemma FiledAt(db: DB, ko: bool, roundsMap: map<int, seq<int>>, maxHops: nat, m: nat, x: int)
    requires NextForward(db) && m < |db.matches| && At(roundsMap, x) == AtDistance(db, ko, maxHops - x + 1, m)
    ensures At(Filing(db, ko, roundsMap, maxHops, m), x) == AtDistance(db, ko, maxHops - x + 1, m + 1)
  {
  }

  function Filing(db: DB, ko: bool, roundsMap: map<int, seq<int>>, maxHops: nat, m: nat): map<int, seq<int>>
    requires NextForward(db) && m < |db.matches|
  {
    var rn := maxHops - PathLength(db, ko, m) + 1;
    if Shown(db, ko, m) then roundsMap[rn := At(roundsMap, rn) + [m]] else roundsMap
  }

  lemma FiledNext(db: DB, ko: bool, roundsMap: map<int, seq<int>>, maxHops: nat, m: nat, next: map<int, seq<int>>)
    requires NextForward(db) && m < |db.matches| && FiledBy(db, ko, roundsMap, maxHops, m)
    requires next == Filing(db, ko, roundsMap, maxHops, m)
    ensures FiledBy(db, ko, next, maxHops, m + 1)
  {
    forall x
      ensures At(next, x) == AtDistance(db, ko, maxHops - x + 1, m + 1)
    {
      FiledAt(db, ko, roundsMap, maxHops, m, x);
    }
  }

  /** roundsMap: every listed match filed under its round, in match order. */
  method GroupByRound(db: DB, ko: bool, roundOf: map<nat, nat>, maxHops: nat) returns (roundsMap: map<int, seq<int>>)
    requires NextForward(db) && MemoTrue(db, ko, roundOf) && MemoCovers(db, ko, roundOf, |db.matches|)
    ensures FiledBy(db, ko, roundsMap, maxHops, |db.matches|)
  {
    roundsMap := map[];
    for m := 0 to |db.matches|
      invariant FiledBy(db, ko, roundsMap, maxHops, m)
    {
      ghost var was := roundsMap;
      if Shown(db, ko, m) {
        var rn := maxHops - roundOf[m] + 1;
        roundsMap := roundsMap[rn := At(roundsMap, rn) + [m]];
      }
      FiledNext(db, ko, was, maxHops, m, roundsMap);
    }
  }

  // Round trip

  /** The round read back is round r of the knockout generated from match start on, in
      order. */
  ghost predicate ReadsBack(ms: seq<Match>, start: nat, round: Round, r: nat) {
    && round.number == r
    && (forall i :: 0 <= i < |round.matches| ==> round.matches[i] == round.matches[0] + i)
    && (forall m :: 0 <= m < |ms| ==> (m in round.matches <==> start <= m && ms[m].round == r))
    && round.name == if |round.matches| == 1 then Final else if |round.matches| == 2 then Semifinal
                     else if |round.matches| == 4 then Quarterfinal else RoundOf(2 * |round.matches|)
  }

  /** Building from pairs, storing, running any requests and reading back returns every
      match in its generated round and in order, and a round named "Round of N" has
      exactly N slots. */
  lemma ReadsBackAsGenerated(pairs: seq<Pair>, names: map<Team, int>, qs: seq<Request>, r: nat)
    requires Buildable(pairs, names)
    requires 1 <= r <= Lg(PowerAtLeast(|Cleaned(pairs)|)) + 1
    ensures EdgesInside(FromPairs(pairs)) && Laid(Built(pairs, names))
    ensures var db := Run(Built(pairs, names), qs);
            && NextForward(db) && |BracketRounds(db, false)| == Lg(PowerAtLeast(|Cleaned(pairs)|)) + 1
            && ReadsBack(FromPairs(pairs), 0, BracketRounds(db, false)[r - 1], r)
  {
    BuiltBracket(pairs, names);
    RunKeepsDraw(Built(pairs, names), qs);
    BuiltIsHeap(pairs, names, Run(Built(pairs, names), qs));
    HeapReadsBack(FromPairs(pairs), Run(Built(pairs, names), qs), false, 0, PowerAtLeast(|Cleaned(pairs)|), r);
  }

  /** So does the knockout of an event with groups, behind its group stage. */
  lemma KnockoutReadsBack(specs: seq<GroupSpec>, names: map<Team, int>, qs: seq<Request>, r: nat)
    requires Settable(specs, names)
    requires 1 <= r <= Lg(PowerAtLeast(|Advancers(specs)|) / 2) + 1
    ensures EdgesInside(GroupDraw(specs)) && Laid(Persisted(GroupDraw(specs), names))
    ensures var db := Run(Persisted(GroupDraw(specs), names), qs);
            && NextForward(db) && !NothingShown(db, true)
            && |BracketRounds(db, true)| == Lg(PowerAtLeast(|Advancers(specs)|) / 2) + 1
            && ReadsBack(GroupDraw(specs), |GroupStage(specs, |specs|)|, BracketRounds(db, true)[r - 1], r)
  {
    GroupKnockoutRunsTrue(specs, names, qs);
    KnockoutIsHeap(specs, names, Run(Persisted(GroupDraw(specs), names), qs));
    HeapReadsBack(GroupDraw(specs), Run(Persisted(GroupDraw(specs), names), qs), true, |GroupStage(specs, |specs|)|,
                  PowerAtLeast(|Advancers(specs)|) / 2, r);
  }

  // Distances in a stored bracket

  function Interval(lo: int, hi: int): seq<int> {
    if lo <= hi then seq(hi - lo, i requires 0 <= i => lo + i) else []
  }

  /** From match start on, the listed matches are the wired bracket of f first-round matches. */
  ghost predicate HeapWired(db: DB, ko: bool, start: nat, f: nat) {
    && f >= 1 && IsPow2(f) && |db.matches| == start + 2 * f - 1 && NextForward(db)
    && (forall m :: 0 <= m < start ==> !Shown(db, ko, m))
    && (forall m :: start <= m < |db.matches| ==>
          Shown(db, ko, m)
          && db.matches[m].next == if m == |db.matches| - 1 then None else Some(start + f + (m - start) / 2))
  }

  /** The generator's round of each match of that bracket. */
  ghost predicate HeapRounded(ms: seq<Match>, start: nat, f: nat) {
    && |ms| == start + 2 * f - 1
    && forall m :: start <= m < |ms| ==> ms[m].round == 1 + Lg(f) - Lg(HeapNumber(f, m - start))
  }

  lemma HalfHeapNumber(f: nat, m: nat)
    requires m < 2 * f - 2
    ensures HeapNumber(f, f + m / 2) == HeapNumber(f, m) / 2 && HeapNumber(f, m) >= 2
    ensures Lg(HeapNumber(f, m)) == 1 + Lg(HeapNumber(f, f + m / 2))
  {
  }

  /** The stored bracket's path lengths are the logarithms of its heap numbers. */
  lemma {:induction false} HeapPath(db: DB, ko: bool, start: nat, f: nat, m: nat)
    requires HeapWired(db, ko, start, f) && start <= m < |db.matches|
    ensures PathLength(db, ko, m) == Lg(HeapNumber(f, m - start))
    decreases |db.matches| - m
  {
    if m < |db.matches| - 1 {
      HalfHeapNumber(f, m - start);
      HeapPath(db, ko, start, f, start + f + (m - start) / 2);
    }
  }

  /** Heap numbers with logarithm h form one block of the draw. */
  lemma HeapBlock(f: nat, h: nat, m: nat)
    requires m < 2 * f - 1
    ensures Lg(HeapNumber(f, m)) == h <==> 2 * f - 2 * Pow2(h) <= m < 2 * f - Pow2(h)
  {
    var u := HeapNumber(f, m);
    LgBounds(u);
    if Pow2(h) <= u < 2 * Pow2(h) { LgBetween(h, u); }
  }

  /** The matches from start on with heap numbers from 2^h up. */
  function Block(start: nat, f: nat, h: nat): seq<int> {
    Interval(start + 2 * f - 2 * Pow2(h), start + 2 * f - Pow2(h))
  }

  lemma BlockLength(start: nat, f: nat, h: nat)
    requires IsPow2(f) && f >= 1 && h <= Lg(f)
    ensures |Block(start, f, h)| == Pow2(h) && 2 * Pow2(h) <= 2 * f
  {
    Pow2Grows(h, Lg(f));
  }

  /** The part of an interval below n. */
  function Below(lo: int, hi: int, n: int): seq<int> {
    Interval(lo, if n < hi then n else hi)
  }

  lemma BelowMore(lo: int, hi: int, n: int)
    ensures Below(lo, hi, n + 1) == Below(lo, hi, n) + (if lo <= n < hi then [n] else [])
  {
  }

  lemma {:induction false} AtDistanceInterval(db: DB, ko: bool, start: nat, f: nat, h: nat, lo: nat, hi: nat, n: nat)
    requires HeapWired(db, ko, start, f) && n <= |db.matches| && 2 * Pow2(h) <= 2 * f
    requires lo == start + 2 * f - 2 * Pow2(h) && hi == start + 2 * f - Pow2(h)
    ensures AtDistance(db, ko, h, n) == Below(lo, hi, n)
  {
    if n > 0 {
      AtDistanceInterval(db, ko, start, f, h, lo, hi, n - 1);
      ShownAtDistance(db, ko, start, f, h, n - 1);
      BelowMore(lo, hi, n - 1);
    }
  }

  lemma ShownAtDistance(db: DB, ko: bool, start: nat, f: nat, h: nat, m: nat)
    requires HeapWired(db, ko, start, f) && m < |db.matches| && 2 * Pow2(h) <= 2 * f
    ensures Shown(db, ko, m) && PathLength(db, ko, m) == h <==> start + 2 * f - 2 * Pow2(h) <= m < start + 2 * f - Pow2(h)
  {
    if m >= start {
      HeapPath(db, ko, start, f, m);
      HeapBlock(f, h, m - start);
    }
  }

  lemma {:induction false} LongestIsDepth(db: DB, ko: bool, start: nat, f: nat, n: nat)
    requires HeapWired(db, ko, start, f) && n <= |db.matches|
    ensures Longest(db, ko, n) == if n <= start then 0 else Lg(2 * f - 1)
  {
    if n > 0 {
      LongestIsDepth(db, ko, start, f, n - 1);
      if n > start {
        HeapPath(db, ko, start, f, n - 1);
        LgMonotone(HeapNumber(f, n - 1 - start), 2 * f - 1);
      }
    }
  }

  lemma {:induction false} LgMonotone(a: int, b: int)
    requires a <= b
    ensures Lg(a) <= Lg(b)
  {
    if a >= 2 { LgMonotone(a / 2, b / 2); }
  }

  lemma HeapDepth(db: DB, ko: bool, start: nat, f: nat)
    requires HeapWired(db, ko, start, f)
    ensures Longest(db, ko, |db.matches|) == Lg(f)
  {
    LongestIsDepth(db, ko, start, f, |db.matches|);
    LgBetween(Lg(f), 2 * f - 1);
  }

  /** The matches h hops before the final are one block. */
  lemma HeapRow(db: DB, ko: bool, start: nat, f: nat, h: nat)
    requires HeapWired(db, ko, start, f) && h <= Lg(f)
    ensures AtDistance(db, ko, h, |db.matches|) == Block(start, f, h)
  {
    BlockLength(start, f, h);
    AtDistanceInterval(db, ko, start, f, h, start + 2 * f - 2 * Pow2(h), start + 2 * f - Pow2(h), |db.matches|);
  }

  lemma HeapReadsBack(ms: seq<Match>, db: DB, ko: bool, start: nat, f: nat, r: nat)
    requires HeapWired(db, ko, start, f) && HeapRounded(ms, start, f) && 1 <= r <= Lg(f) + 1
    ensures !NothingShown(db, ko)
    ensures |BracketRounds(db, ko)| == Lg(f) + 1
    ensures ReadsBack(ms, start, BracketRounds(db, ko)[r - 1], r)
  {
    assert Shown(db, ko, start);
    HeapDepth(db, ko, start, f);
    HeapRow(db, ko, start, f, 1 + Lg(f) - r);
    BlockReadsBack(ms, start, BracketRounds(db, ko)[r - 1], f, 1 + Lg(f) - r, r);
  }

  lemma NameOfRound(h: nat)
    ensures NameFor(h) == if Pow2(h) == 1 then Final else if Pow2(h) == 2 then Semifinal
                          else if Pow2(h) == 4 then Quarterfinal else RoundOf(2 * Pow2(h))
  {
    assert Pow2(0) == 1 && Pow2(1) == 2 && Pow2(2) == 4 && Pow2(3) == 8;
    if h >= 3 { Pow2Grows(3, h); }
  }

  lemma BlockReadsBack(ms: seq<Match>, start: nat, round: Round, f: nat, h: nat, r: nat)
    requires HeapRounded(ms, start, f) && IsPow2(f) && f >= 1 && 1 <= r && h == 1 + Lg(f) - r
    requires round == Round(r, NameFor(h), Block(start, f, h))
    ensures ReadsBack(ms, start, round, r)
  {
    BlockLength(start, f, h);
    NameOfRound(h);
    forall m: nat | m < |ms|
      ensures m in round.matches <==> start <= m && ms[m].round == r
    {
      BlockMember(start, f, h, m);
    }
  }

  lemma BlockMember(start: nat, f: nat, h: nat, m: nat)
    requires m < start + 2 * f - 1 && 2 * Pow2(h) <= 2 * f
    ensures m in Block(start, f, h) <==> start <= m && Lg(HeapNumber(f, m - start)) == h
  {
    if start <= m { HeapBlock(f, h, m - start); }
    InInterval(start + 2 * f - 2 * Pow2(h), start + 2 * f - Pow2(h), m);
  }

  // The stored draws are wired so

  lemma WiredShape(first: seq<Match>, m: nat)
    requires |first| >= 1 && m < 2 * |first| - 1
    ensures Wired(first)[m].next == if m == 2 * |first| - 2 then -1 else |first| + m / 2
    ensures Wired(first)[m].round == 1 + Lg(|first|) - Lg(HeapNumber(|first|, m))
  {
  }

  lemma StoredNext(ms: seq<Match>, names: map<Team, int>, m: nat)
    requires EdgesInside(ms) && m < |ms|
    ensures Persisted(ms, names).matches[m].next == if ms[m].next >= 0 then Some(ms[m].next) else None
    ensures Persisted(ms, names).matches[m].group == if ms[m].group >= 0 then Some(ms[m].group) else None
  {
  }

  /** Match m of a draw whose knockout is the wired bracket from start on. */
  predicate HeapMatch(ms: seq<Match>, start: nat, f: nat, m: nat)
    requires m < |ms|
  {
    if m < start then ms[m].group >= 0 && ms[m].next < 0
    else
      && ms[m].group < 0
      && ms[m].next == (if m == |ms| - 1 then -1 else start + f + (m - start) / 2)
      && ms[m].round == 1 + Lg(f) - Lg(HeapNumber(f, m - start))
  }

  lemma StoredHeap(ms: seq<Match>, names: map<Team, int>, db: DB, ko: bool, start: nat, f: nat)
    requires EdgesInside(ms) && SameDraw(Persisted(ms, names), db) && (start == 0 || ko)
    requires f >= 1 && IsPow2(f) && |ms| == start + 2 * f - 1
    requires forall m :: 0 <= m < |ms| ==> HeapMatch(ms, start, f, m)
    ensures HeapWired(db, ko, start, f) && HeapRounded(ms, start, f)
  {
    forall m: nat | m < |db.matches|
      ensures db.matches[m].next == if ms[m].next >= 0 then Some(ms[m].next) else None
      ensures db.matches[m].group.Some? <==> ms[m].group >= 0
      ensures HeapMatch(ms, start, f, m)
    {
      StoredNext(ms, names, m);
    }
  }

  lemma BuiltIsHeap(pairs: seq<Pair>, names: map<Team, int>, db: DB)
    requires Buildable(pairs, names) && DrawOk(FromPairs(pairs), names) && SameDraw(Built(pairs, names), db)
    ensures HeapWired(db, false, 0, PowerAtLeast(|Cleaned(pairs)|))
    ensures HeapRounded(FromPairs(pairs), 0, PowerAtLeast(|Cleaned(pairs)|))
  {
    var f := PowerAtLeast(|Cleaned(pairs)|);
    BracketSize(pairs);
    forall m: nat | m < |FromPairs(pairs)|
      ensures HeapMatch(FromPairs(pairs), 0, f, m)
    {
      WiredSlots(pairs, m, 1);
      WiredShape(PairRound(Cleaned(pairs)), m);
    }
    StoredHeap(FromPairs(pairs), names, db, false, 0, f);
  }

  lemma KnockoutMatch(specs: seq<GroupSpec>, m: nat)
    requires |Advancers(specs)| >= 2 && |GroupStage(specs, |specs|)| <= m < |GroupDraw(specs)|
    ensures var start, f := |GroupStage(specs, |specs|)|, PowerAtLeast(|Advancers(specs)|) / 2;
            |GroupDraw(specs)| == start + 2 * f - 1 && HeapMatch(GroupDraw(specs), start, f, m)
  {
    var first := SlotRound(Padded(Advancers(specs)));
    PaddedSize(Advancers(specs));
    ShiftedHeap(first, GroupStage(specs, |specs|), m);
  }

  /** The wired bracket renumbered behind a stage. */
  lemma ShiftedHeap(first: seq<Match>, stage: seq<Match>, m: nat)
    requires |first| >= 1 && |stage| <= m < |stage| + 2 * |first| - 1
    ensures var ms := Joined(stage, Regrouped(Wired(first), -1));
            |ms| == |stage| + 2 * |first| - 1 && HeapMatch(ms, |stage|, |first|, m)
  {
    WiredShape(first, m - |stage|);
    var ko := Regrouped(Wired(first), -1);
    assert Joined(stage, ko)[m] == Shift(ko[m - |stage|], |stage|);
  }

  lemma KnockoutIsHeap(specs: seq<GroupSpec>, names: map<Team, int>, db: DB)
    requires Settable(specs, names) && StateOf(PlanOf(specs, names), db)
    ensures HeapWired(db, true, |GroupStage(specs, |specs|)|, PowerAtLeast(|Advancers(specs)|) / 2)
    ensures HeapRounded(GroupDraw(specs), |GroupStage(specs, |specs|)|, PowerAtLeast(|Advancers(specs)|) / 2)
  {
    var start, f := |GroupStage(specs, |specs|)|, PowerAtLeast(|Advancers(specs)|) / 2;
    var p := PlanOf(specs, names);
    AdvancersSound(specs, names.Keys);
    PaddedSize(Advancers(specs));
    KnockoutFollows(specs);
    KnockoutMatch(specs, start);
    forall m: nat | m < |GroupDraw(specs)|
      ensures HeapMatch(GroupDraw(specs), start, f, m)
    {
      if m < start { assert StageMatchIn(specs, p.ms[..p.start][m]); } else { KnockoutMatch(specs, m); }
    }
    StoredHeap(GroupDraw(specs), names, db, true, start, f);
  }

  lemma InInterval(lo: int, hi: int, x: int)
    ensures x in Interval(lo, hi) <==> lo <= x < hi
  {
    if lo <= x < hi { assert Interval(lo, hi)[x - lo] == x; }
  }
}
