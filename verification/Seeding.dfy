/** The seeded single-elimination draw (single_elim.go): the order of the seeds by doubling,
    where seeded and unseeded entries are placed, and what follows for byes and for the
    paths of the top seeds. */
module Seeding {
  import opened Wrappers
  import opened Powers
  import opened Bracket

  /** One competitor; seed 0 (or below) means unseeded. */
  datatype Entry = Entry(team: Team, seed: int)

  // seedPositions

  /** Every seed followed by its complement in the doubled bracket. */
  function Doubled(s: seq<int>): (r: seq<int>) {
    seq(2 * |s|, i requires 0 <= i < 2 * |s| =>
      if i % 2 == 0 then s[i / 2] else 2 * |s| + 1 - s[i / 2])
  }

  function SeedOrder(k: nat): (s: seq<int>)
    requires k >= 1
    ensures |s| == Pow2(k)
  {
    if k == 1 then [1, 2] else Doubled(SeedOrder(k - 1))
  }

  method SeedPositions(size: int) returns (seeds: seq<int>)
    ensures size <= 2 ==> seeds == SeedOrder(1)
    ensures size > 2 ==> seeds == SeedOrder(Lg(PowerAtLeast(size)))
  {
    seeds := [1, 2];
    ghost var k := 1;
    while |seeds| < size
      invariant k >= 1 && seeds == SeedOrder(k)
      invariant k > 1 ==> Pow2(k) < 2 * size
    {
      seeds := DoubleSeeds(seeds);
      k := k + 1;
    }
    if size > 2 {
      Pow2IsPow2(k);
      PowerAtLeastUnique(size, Pow2(k));
    }
  }

  /** The body of the loop: every seed, then its complement. */
  method DoubleSeeds(seeds: seq<int>) returns (next: seq<int>)
    ensures next == Doubled(seeds)
  {
    next := [];
    var rounds := |seeds| * 2;
    for i := 0 to |seeds|
      invariant next == Doubled(seeds)[..2 * i]
    {
      next := next + [seeds[i], rounds + 1 - seeds[i]];
    }
  }

  /** s is a permutation of 1..|s|. */
  ghost predicate Ranks(s: seq<int>) {
    && (forall i :: 0 <= i < |s| ==> 1 <= s[i] <= |s|)
    && (forall i, j :: 0 <= i < j < |s| ==> s[i] != s[j])
    && (forall v :: 1 <= v <= |s| ==> v in s)
  }

  lemma DoubledRanks(s: seq<int>)
    requires Ranks(s)
    ensures Ranks(Doubled(s))
  {
    var d := Doubled(s);
    forall v | 1 <= v <= 2 * |s|
      ensures v in d
    {
      var w := if v <= |s| then v else 2 * |s| + 1 - v;
      assert w in s;
      var p :| 0 <= p < |s| && s[p] == w;
      assert d[2 * p] == w && d[2 * p + 1] == 2 * |s| + 1 - w;
    }
  }

  /** seedPositions is a permutation of 1..size. */
  lemma {:induction false} SeedOrderPermutes(k: nat)
    requires k >= 1
    ensures Ranks(SeedOrder(k))
  {
    if k == 1 {
      assert SeedOrder(1)[0] == 1 && SeedOrder(1)[1] == 2;
    } else {
      SeedOrderPermutes(k - 1);
      DoubledRanks(SeedOrder(k - 1));
    }
  }

  /** Of the slots lo..hi exactly the first holds one of the top seeds. */
  ghost predicate TopSeedLeads(s: seq<int>, lo: int, hi: int, top: int)
    requires 0 <= lo && hi <= |s|
  {
    forall m :: lo <= m < hi ==> (s[m] <= top <==> m == lo)
  }

  lemma DoubledBlock(s: seq<int>, lo: nat, hi: nat, top: int)
    requires Ranks(s) && lo < hi <= |s| && top <= |s|
    requires TopSeedLeads(s, lo, hi, top)
    ensures TopSeedLeads(Doubled(s), 2 * lo, 2 * hi, top)
  {
    forall m | 2 * lo <= m < 2 * hi
      ensures Doubled(s)[m] <= top <==> m == 2 * lo
    {
      assert 1 <= s[m / 2] <= |s|;
    }
  }

  /** First slot of the aligned block number b of 2^j slots: b * 2^j. */
  function BlockStart(j: nat, b: nat): nat {
    if j == 0 then b else 2 * BlockStart(j - 1, b)
  }

  lemma {:induction false} BlockStartIsMultiple(j: nat, b: nat)
    ensures BlockStart(j, b) == b * Pow2(j)
  {
    if j > 0 {
      BlockStartIsMultiple(j - 1, b);
    }
  }

  /** Every aligned block of 2^j slots holds exactly one of the top 2^i seeds
      (i = k - j), so the top 2^i seeds sit in different sub-brackets. */
  lemma {:induction false} OneTopSeedPerBlock(k: nat, i: nat, j: nat, b: nat)
    requires k >= 1 && k == i + j && b < Pow2(i)
    ensures BlockStart(j, b) + Pow2(j) <= Pow2(k)
    ensures TopSeedLeads(SeedOrder(k), BlockStart(j, b), BlockStart(j, b) + Pow2(j), Pow2(i))
  {
    if j == 0 {
      SeedOrderPermutes(k);
    } else if k == 1 {
      assert SeedOrder(1)[0] == 1 && SeedOrder(1)[1] == 2;
    } else {
      OneTopSeedPerBlock(k - 1, i, j - 1, b);
      SeedOrderPermutes(k - 1);
      Pow2Grows(i, k - 1);
      DoubledBlock(SeedOrder(k - 1), BlockStart(j - 1, b), BlockStart(j - 1, b) + Pow2(j - 1), Pow2(i));
    }
  }

  /** The two seeds of a first-round match sum to size + 1. */
  lemma FirstRoundSeedsSum(k: nat, i: nat)
    requires k >= 1 && 2 * i + 1 < Pow2(k)
    ensures SeedOrder(k)[2 * i] + SeedOrder(k)[2 * i + 1] == Pow2(k) + 1
  {
    if k > 1 { DoubledPair(SeedOrder(k - 1), i); }
  }

  lemma DoubledPair(s: seq<int>, i: nat)
    requires i < |s|
    ensures Doubled(s)[2 * i] == s[i] && Doubled(s)[2 * i + 1] == 2 * |s| + 1 - s[i]
  {
  }

  // placeEntries

  /** Index of the last entry carrying this seed; the map keeps the last one. */
  function WithSeed(entries: seq<Entry>, s: int): (r: Option<nat>)
    ensures r.Some? ==> r.value < |entries| && entries[r.value].seed == s && s > 0
    ensures r.None? && s > 0 ==> forall i :: 0 <= i < |entries| ==> entries[i].seed != s
  {
    if entries == [] || s <= 0 then None
    else
      var n := |entries| - 1;
      if entries[n].seed == s then Some(n) else WithSeed(entries[..n], s)
  }

  function Unseeded(entries: seq<Entry>): (r: seq<nat>)
    ensures |r| <= |entries|
    ensures forall q :: 0 <= q < |r| ==> r[q] < |entries| && entries[r[q]].seed <= 0
    ensures forall p, q :: 0 <= p < q < |r| ==> r[p] < r[q]
  {
    if entries == [] then []
    else
      var n := |entries| - 1;
      var rest := Unseeded(entries[..n]);
      if entries[n].seed > 0 then rest else rest + [n]
  }

  lemma {:induction false} UnseededCovers(entries: seq<Entry>, e: nat)
    requires e < |entries| && entries[e].seed <= 0
    ensures e in Unseeded(entries)
  {
    if e < |entries| - 1 {
      UnseededCovers(entries[..|entries| - 1], e);
    }
  }

  /** Slots among the first i that no seed designates. */
  function FreeSlots(entries: seq<Entry>, order: seq<int>, i: nat): (r: nat)
    requires i <= |order|
    ensures r <= i
  {
    if i == 0 then 0
    else FreeSlots(entries, order, i - 1) + (if WithSeed(entries, order[i - 1]).None? then 1 else 0)
  }

  /** The entry in a bracket slot, None for a bye. */
  function PlacedAt(entries: seq<Entry>, order: seq<int>, i: nat): Option<nat>
    requires i < |order|
  {
    var e := WithSeed(entries, order[i]);
    var free := FreeSlots(entries, order, i);
    if e.Some? then e
    else if free < |Unseeded(entries)| then Some(Unseeded(entries)[free])
    else None
  }

  method PlaceEntries(entries: seq<Entry>, order: seq<int>) returns (placed: seq<Option<nat>>)
    ensures placed == Placed(entries, order)
  {
    var bySeed, unseeded := SortOut(entries);
    placed := [];
    var ui := 0;
    for slot := 0 to |order|
      invariant PlacedSoFar(entries, order, placed, slot)
      invariant ui == Least(FreeSlots(entries, order, slot), |unseeded|)
    {
      assert HoldsSeed(bySeed, entries, order[slot]);
      ghost var was := placed;
      NextPlaced(entries, order, bySeed, slot, ui);
      if order[slot] in bySeed {
        placed := placed + [Some(bySeed[order[slot]])];
      } else if ui < |unseeded| {
        placed := placed + [Some(unseeded[ui])];
        ui := ui + 1;
      } else {
        placed := placed + [None];
      }
      PlacedMore(entries, order, was, slot);
    }
  }

  /** What the loop does in one slot is what the specification places there. */
  lemma NextPlaced(entries: seq<Entry>, order: seq<int>, bySeed: map<int, nat>, slot: nat, ui: nat)
    requires slot < |order| && HoldsSeed(bySeed, entries, order[slot])
    requires ui == Least(FreeSlots(entries, order, slot), |Unseeded(entries)|)
    ensures PlacedAt(entries, order, slot) ==
            if order[slot] in bySeed then Some(bySeed[order[slot]])
            else if ui < |Unseeded(entries)| then Some(Unseeded(entries)[ui]) else None
    ensures Least(FreeSlots(entries, order, slot + 1), |Unseeded(entries)|) ==
            if order[slot] in bySeed || ui == |Unseeded(entries)| then ui else ui + 1
  {
  }

  ghost predicate PlacedSoFar(entries: seq<Entry>, order: seq<int>, placed: seq<Option<nat>>, n: nat)
    requires n <= |order|
  {
    |placed| == n && forall i :: 0 <= i < n ==> placed[i] == PlacedAt(entries, order, i)
  }

  lemma PlacedMore(entries: seq<Entry>, order: seq<int>, placed: seq<Option<nat>>, n: nat)
    requires n < |order| && PlacedSoFar(entries, order, placed, n)
    ensures PlacedSoFar(entries, order, placed + [PlacedAt(entries, order, n)], n + 1)
  {
  }

  function Least(a: nat, b: nat): nat {
    if a < b then a else b
  }

  predicate HoldsSeed(bySeed: map<int, nat>, entries: seq<Entry>, s: int) {
    if s in bySeed then WithSeed(entries, s) == Some(bySeed[s]) else WithSeed(entries, s).None?
  }

  lemma NextSeed(bySeed: map<int, nat>, entries: seq<Entry>, i: nat, s: int)
    requires i < |entries| && HoldsSeed(bySeed, entries[..i], s)
    ensures HoldsSeed(if entries[i].seed > 0 then bySeed[entries[i].seed := i] else bySeed, entries[..i + 1], s)
  {
    assert entries[..i + 1][..i] == entries[..i];
  }

  /** The first loop of placeEntries: seeded entries by seed, the others in order. */
  method SortOut(entries: seq<Entry>) returns (bySeed: map<int, nat>, unseeded: seq<nat>)
    ensures unseeded == Unseeded(entries)
    ensures forall s :: HoldsSeed(bySeed, entries, s)
  {
    bySeed, unseeded := map[], [];
    for i := 0 to |entries|
      invariant unseeded == Unseeded(entries[..i])
      invariant forall s :: HoldsSeed(bySeed, entries[..i], s)
    {
      assert entries[..i + 1][..i] == entries[..i];
      ghost var was := bySeed;
      if entries[i].seed > 0 {
        bySeed := bySeed[entries[i].seed := i];
      } else {
        unseeded := unseeded + [i];
      }
      forall s {:trigger HoldsSeed(bySeed, entries[..i + 1], s)}
        ensures HoldsSeed(bySeed, entries[..i + 1], s)
      {
        NextSeed(was, entries, i, s);
      }
    }
    assert entries[..|entries|] == entries;
  }

  /** Seeds are distinct, and none exceeds the bracket. */
  ghost predicate SeedsFit(entries: seq<Entry>, size: int) {
    && |entries| <= size
    && (forall i :: 0 <= i < |entries| ==> entries[i].seed <= size)
    && (forall i, j :: 0 <= i < j < |entries| && entries[i].seed > 0 ==> entries[i].seed != entries[j].seed)
  }

  function SeedsOf(entries: seq<Entry>): (r: set<int>)
    ensures forall s :: s in r <==> WithSeed(entries, s).Some?
  {
    if entries == [] then {}
    else
      var n := |entries| - 1;
      SeedsOf(entries[..n]) + (if entries[n].seed > 0 then {entries[n].seed} else {})
  }

  lemma {:induction false} SeededPlusUnseeded(entries: seq<Entry>)
    requires forall i, j :: 0 <= i < j < |entries| && entries[i].seed > 0 ==> entries[i].seed != entries[j].seed
    ensures |SeedsOf(entries)| + |Unseeded(entries)| == |entries|
  {
    if entries != [] {
      var rest, last := entries[..|entries| - 1], entries[|entries| - 1];
      SeededPlusUnseeded(rest);
      if last.seed > 0 { NewSeed(rest, last.seed); }
    }
  }

  lemma NewSeed(rest: seq<Entry>, s: int)
    requires forall i :: 0 <= i < |rest| ==> rest[i].seed != s
    ensures s !in SeedsOf(rest)
  {
    assert WithSeed(rest, s).None?;
  }

  /** Every slot below i is free unless it is some seed's slot. */
  lemma {:induction false} FreeSlotsCount(entries: seq<Entry>, order: seq<int>, i: nat)
    requires Ranks(order) && i <= |order|
    ensures FreeSlots(entries, order, i) == i - |set s | s in SeedsOf(entries) && s in order[..i]|
  {
    if i == 0 {
      assert (set s | s in SeedsOf(entries) && s in order[..i]) == {};
    } else {
      FreeSlotsCount(entries, order, i - 1);
      NamedGrow(SeedsOf(entries), order, i - 1);
    }
  }

  lemma NamedGrow(seeds: set<int>, order: seq<int>, i: nat)
    requires Ranks(order) && i < |order|
    ensures |set s | s in seeds && s in order[..i + 1]| ==
            |set s | s in seeds && s in order[..i]| + (if order[i] in seeds then 1 else 0)
  {
    NextRank(order, i);
    assert (set s | s in seeds && s in order[..i + 1]) ==
           (set s | s in seeds && s in order[..i]) + (if order[i] in seeds then {order[i]} else {});
  }

  lemma NextRank(order: seq<int>, i: nat)
    requires Ranks(order) && i < |order|
    ensures order[i] !in order[..i]
    ensures forall s :: s in order[..i + 1] <==> s in order[..i] || s == order[i]
  {
    assert order[..i + 1] == order[..i] + [order[i]];
  }

  function Byes(placed: seq<Option<nat>>): nat {
    if placed == [] then 0
    else Byes(placed[..|placed| - 1]) + (if placed[|placed| - 1].None? then 1 else 0)
  }

  function Placed(entries: seq<Entry>, order: seq<int>): seq<Option<nat>> {
    seq(|order|, i requires 0 <= i < |order| => PlacedAt(entries, order, i))
  }

  lemma NextBye(placed: seq<Option<nat>>, n: nat)
    requires n < |placed|
    ensures Byes(placed[..n + 1]) == Byes(placed[..n]) + (if placed[n].None? then 1 else 0)
  {
    assert placed[..n + 1][..n] == placed[..n];
  }

  lemma ByesCount(entries: seq<Entry>, order: seq<int>, n: nat)
    requires n <= |order|
    ensures var free, u := FreeSlots(entries, order, n), |Unseeded(entries)|;
            Byes(Placed(entries, order)[..n]) == if free <= u then 0 else free - u
  {
    forall i: nat | i < n
      ensures ByeStep(entries, order, Placed(entries, order), i)
    {
      ByeAt(entries, order, i);
    }
    ByesOf(entries, order, Placed(entries, order), n);
  }

  lemma {:induction false} ByesOf(entries: seq<Entry>, order: seq<int>, placed: seq<Option<nat>>, n: nat)
    requires n <= |order| == |placed| && forall i :: 0 <= i < n ==> ByeStep(entries, order, placed, i)
    ensures var free, u := FreeSlots(entries, order, n), |Unseeded(entries)|;
            Byes(placed[..n]) == if free <= u then 0 else free - u
  {
    if n > 0 {
      ByesOf(entries, order, placed, n - 1);
      NextBye(placed, n - 1);
      assert ByeStep(entries, order, placed, n - 1);
    }
  }

  predicate ByeStep(entries: seq<Entry>, order: seq<int>, placed: seq<Option<nat>>, i: nat)
    requires i < |order| == |placed|
  {
    var free, next := FreeSlots(entries, order, i), FreeSlots(entries, order, i + 1);
    if next == free then placed[i].Some?
    else next == free + 1 && (placed[i].None? <==> free >= |Unseeded(entries)|)
  }

  /** A slot is a bye when no seed names it and the other entries have run out. */
  lemma ByeAt(entries: seq<Entry>, order: seq<int>, i: nat)
    requires i < |order|
    ensures ByeStep(entries, order, Placed(entries, order), i)
  {
  }

  lemma {:induction false} FreeSlotsMonotone(entries: seq<Entry>, order: seq<int>, i: nat, j: nat)
    requires i <= j <= |order|
    ensures FreeSlots(entries, order, i) <= FreeSlots(entries, order, j)
  {
    if i < j {
      FreeSlotsMonotone(entries, order, i, j - 1);
    }
  }

  /** The slot at which the count of free slots passes q. */
  lemma {:induction false} FreeSlotNumber(entries: seq<Entry>, order: seq<int>, q: nat, n: nat) returns (i: nat)
    requires n <= |order| && q < FreeSlots(entries, order, n)
    ensures i < n && FreeSlots(entries, order, i) == q && WithSeed(entries, order[i]).None?
  {
    if q < FreeSlots(entries, order, n - 1) {
      i := FreeSlotNumber(entries, order, q, n - 1);
    } else {
      i := n - 1;
    }
  }

  ghost predicate OnlyAt(placed: seq<Option<nat>>, e: nat, i: int) {
    && 0 <= i < |placed| && placed[i] == Some(e)
    && forall j :: 0 <= j < |placed| && placed[j] == Some(e) ==> j == i
  }

  ghost predicate PlacedOnce(placed: seq<Option<nat>>, e: nat) {
    exists i :: OnlyAt(placed, e, i)
  }

  /** Every entry is placed exactly once, and the remaining slots are byes. */
  lemma EntriesPlacedOnce(entries: seq<Entry>, order: seq<int>)
    requires Ranks(order) && SeedsFit(entries, |order|)
    ensures forall e :: 0 <= e < |entries| ==> PlacedOnce(Placed(entries, order), e)
    ensures Byes(Placed(entries, order)) == |order| - |entries|
  {
    var placed, n := Placed(entries, order), |order|;
    SeededPlusUnseeded(entries);
    FreeSlotsCount(entries, order, n);
    assert order[..n] == order && placed[..n] == placed;
    forall s | s in SeedsOf(entries)
      ensures s in order
    {
      assert WithSeed(entries, s).Some?;
    }
    assert (set s | s in SeedsOf(entries) && s in order) == SeedsOf(entries);
    ByesCount(entries, order, n);
    forall e | 0 <= e < |entries|
      ensures PlacedOnce(placed, e)
    {
      if entries[e].seed > 0 {
        SeededPlacedOnce(entries, order, e);
      } else {
        UnseededPlacedOnce(entries, order, e);
      }
    }
  }

  lemma SeededPlacedOnce(entries: seq<Entry>, order: seq<int>, e: nat)
    requires Ranks(order) && SeedsFit(entries, |order|) && e < |entries| && entries[e].seed > 0
    ensures PlacedOnce(Placed(entries, order), e)
  {
    var s := entries[e].seed;
    assert WithSeed(entries, s) == Some(e);
    assert s in order;
    var i :| 0 <= i < |order| && order[i] == s;
    assert OnlyAt(Placed(entries, order), e, i);
  }

  /** An unseeded entry sits where its number among the unseeded is reached. */
  lemma UnseededInFreeSlot(entries: seq<Entry>, order: seq<int>, e: nat, j: nat)
    requires e < |entries| && entries[e].seed <= 0 && j < |order| && PlacedAt(entries, order, j) == Some(e)
    ensures WithSeed(entries, order[j]).None?
    ensures FreeSlots(entries, order, j) < |Unseeded(entries)| && Unseeded(entries)[FreeSlots(entries, order, j)] == e
  {
  }

  lemma SameFreeSlot(entries: seq<Entry>, order: seq<int>, i: nat, j: nat, q: nat)
    requires i < |order| && j < |order|
    requires WithSeed(entries, order[i]).None? && WithSeed(entries, order[j]).None?
    requires FreeSlots(entries, order, i) == FreeSlots(entries, order, j) == q
    ensures i == j
  {
    if i < j {
      FreeSlotCounts(entries, order, i, j);
    } else if j < i {
      FreeSlotCounts(entries, order, j, i);
    }
  }

  lemma FreeSlotCounts(entries: seq<Entry>, order: seq<int>, i: nat, j: nat)
    requires i < j < |order| && WithSeed(entries, order[i]).None?
    ensures FreeSlots(entries, order, i) < FreeSlots(entries, order, j)
  {
    FreeSlotsMonotone(entries, order, i + 1, j);
  }

  lemma UnseededPlacedOnce(entries: seq<Entry>, order: seq<int>, e: nat)
    requires e < |entries| && entries[e].seed <= 0
    requires FreeSlots(entries, order, |order|) >= |Unseeded(entries)|
    ensures PlacedOnce(Placed(entries, order), e)
  {
    var u := Unseeded(entries);
    UnseededCovers(entries, e);
    var q :| 0 <= q < |u| && u[q] == e;
    var i := FreeSlotNumber(entries, order, q, |order|);
    forall j | 0 <= j < |order| && PlacedAt(entries, order, j) == Some(e)
      ensures j == i
    {
      UnseededInFreeSlot(entries, order, e, j);
      SameFreeSlot(entries, order, i, j, q);
    }
    assert OnlyAt(Placed(entries, order), e, i);
  }

  // GenerateSingleElimination

  function EntrySlot(entries: seq<Entry>, e: Option<nat>): Slot
    requires e.Some? ==> e.value < |entries|
  {
    if e.None? then ByeSlot else Entrant(entries[e.value].team)
  }

  function SeededMatch(entries: seq<Entry>, order: seq<int>, i: nat): Match
    requires 2 * i + 1 < |order|
  {
    Fresh(1, i, EntrySlot(entries, PlacedAt(entries, order, 2 * i)), EntrySlot(entries, PlacedAt(entries, order, 2 * i + 1)))
  }

  /** Rounds of the padded bracket. */
  function Depth(n: int): nat {
    Lg(PowerAtLeast(n))
  }

  function SeededRound(entries: seq<Entry>): seq<Match>
    requires |entries| >= 2
  {
    var order := SeedOrder(Depth(|entries|));
    seq(|order| / 2, i requires 0 <= i < |order| / 2 => SeededMatch(entries, order, i))
  }

  /** Round 1 from the placed slots. */
  method FirstRound(entries: seq<Entry>, order: seq<int>, placed: seq<Option<nat>>) returns (first: seq<Match>)
    requires placed == Placed(entries, order)
    ensures first == seq(|order| / 2, i requires 0 <= i < |order| / 2 => SeededMatch(entries, order, i))
  {
    first := [];
    for i := 0 to |order| / 2
      invariant |first| == i
      invariant forall j :: 0 <= j < i ==> first[j] == SeededMatch(entries, order, j)
    {
      first := first + [Fresh(1, i, EntrySlot(entries, placed[i * 2]), EntrySlot(entries, placed[i * 2 + 1]))];
    }
  }

  method GenerateSingleElimination(entries: seq<Entry>) returns (ms: seq<Match>)
    ensures |entries| < 2 ==> ms == []
    ensures |entries| >= 2 ==> ms == Wired(SeededRound(entries))
  {
    var n := |entries|;
    if n < 2 {
      return [];
    }
    var size := NextPowerOfTwo(n);
    var order := SeedPositions(size);
    PowerAtLeastUnique(size, size);
    assert order == SeedOrder(Depth(n));
    var placed := PlaceEntries(entries, order);
    var first := FirstRound(entries, order, placed);
    HalfIsPow2(size);
    ms := WireFedRounds(first);
  }

  lemma HalfIsPow2(p: nat)
    requires IsPow2(p) && p >= 2
    ensures IsPow2(p / 2) && p / 2 * 2 == p
  {
    Pow2IsPow2(Lg(p) - 1);
  }

  /** When the seeds are exactly 1..n, a seed meets a bye in round 1 exactly when it
      is one of the top size - n seeds, and no match is bye against bye. */
  lemma ByesFaceTopSeeds(entries: seq<Entry>, i: nat)
    requires |entries| >= 2 && SeedsFit(entries, |entries|)
    requires forall e :: 0 <= e < |entries| ==> entries[e].seed > 0
    requires 2 * i + 1 < PowerAtLeast(|entries|)
    ensures var size, order := PowerAtLeast(|entries|), SeedOrder(Depth(|entries|));
            var m := SeededRound(entries)[i];
            && (m.slot2 == ByeSlot <==> order[2 * i] <= size - |entries|)
            && (m.slot1 == ByeSlot <==> order[2 * i + 1] <= size - |entries|)
            && !(m.slot1 == ByeSlot && m.slot2 == ByeSlot)
  {
    FirstRoundSeedsSum(Depth(|entries|), i);
    SeedOrderPermutes(Depth(|entries|));
    ByesInPair(entries, SeedOrder(Depth(|entries|)), PowerAtLeast(|entries|), i);
  }

  lemma ByesInPair(entries: seq<Entry>, order: seq<int>, size: int, i: nat)
    requires SeedsFit(entries, |entries|) && Ranks(order) && 2 * i + 1 < |order| == size < 2 * |entries|
    requires forall e :: 0 <= e < |entries| ==> entries[e].seed > 0
    requires order[2 * i] + order[2 * i + 1] == size + 1
    ensures var m := SeededMatch(entries, order, i);
            && (m.slot2 == ByeSlot <==> order[2 * i] <= size - |entries|)
            && (m.slot1 == ByeSlot <==> order[2 * i + 1] <= size - |entries|)
            && !(m.slot1 == ByeSlot && m.slot2 == ByeSlot)
  {
    ByeBeyondLastSeed(entries, order, 2 * i);
    ByeBeyondLastSeed(entries, order, 2 * i + 1);
  }

  lemma ByeBeyondLastSeed(entries: seq<Entry>, order: seq<int>, slot: nat)
    requires SeedsFit(entries, |entries|) && Ranks(order) && slot < |order|
    requires forall e :: 0 <= e < |entries| ==> entries[e].seed > 0
    ensures EntrySlot(entries, PlacedAt(entries, order, slot)) == ByeSlot <==> order[slot] > |entries|
  {
    NoneUnseeded(entries);
    AllSeedsUsed(entries, order[slot]);
  }

  lemma {:induction false} NoneUnseeded(entries: seq<Entry>)
    requires forall e :: 0 <= e < |entries| ==> entries[e].seed > 0
    ensures Unseeded(entries) == []
  {
    if entries != [] {
      NoneUnseeded(entries[..|entries| - 1]);
    }
  }

  lemma AllSeedsUsed(entries: seq<Entry>, s: int)
    requires SeedsFit(entries, |entries|)
    requires forall e :: 0 <= e < |entries| ==> entries[e].seed > 0
    ensures WithSeed(entries, s).Some? <==> 1 <= s <= |entries|
  {
    SeededPlusUnseeded(entries);
    NoneUnseeded(entries);
    forall t | t in SeedsOf(entries)
      ensures t in UpTo(|entries|)
    {
      assert WithSeed(entries, t).Some?;
    }
    SubsetOfSameSize(SeedsOf(entries), UpTo(|entries|));
  }

  function UpTo(n: nat): (r: set<int>)
    ensures forall v :: v in r <==> 1 <= v <= n
    ensures |r| == n
  {
    if n == 0 then {} else UpTo(n - 1) + {n}
  }

  lemma {:induction false} SubsetOfSameSize<T>(a: set<T>, b: set<T>)
    requires a <= b && |a| == |b|
    ensures a == b
  {
    if a != {} {
      var x :| x in a;
      SubsetOfSameSize(a - {x}, b - {x});
    }
  }

  // Who stands where

  /** The slot written for place k. */
  lemma SlotOfPlace(entries: seq<Entry>, k: nat)
    requires |entries| >= 2 && k < PowerAtLeast(|entries|)
    ensures |SeedOrder(Depth(|entries|))| == PowerAtLeast(|entries|) == 2 * |SeededRound(entries)|
    ensures SideOf(SeededRound(entries)[k / 2], k % 2 + 1) == EntrySlot(entries, PlacedAt(entries, SeedOrder(Depth(|entries|)), k))
  {
    OrderSize(|entries|);
    HalfIsPow2(PowerAtLeast(|entries|));
    assert k == 2 * (k / 2) || k == 2 * (k / 2) + 1;
  }

  lemma PlaceOfSeed(entries: seq<Entry>, order: seq<int>, k: nat, e: nat)
    requires SeedsFit(entries, |order|) && k < |order| && order[k] > 0 && e < |entries| && entries[e].seed == order[k]
    ensures PlacedAt(entries, order, k) == Some(e)
  {
    assert WithSeed(entries, order[k]).Some?;
  }

  lemma PlaceOfNone(entries: seq<Entry>, order: seq<int>, k: nat)
    requires k < |order| && forall e :: 0 <= e < |entries| ==> entries[e].seed != order[k]
    ensures var p := PlacedAt(entries, order, k); p.None? || entries[p.value].seed <= 0
  {
  }

  /** The slot of the order that names an entry's seed holds that entry; a slot that names no
      entry's seed holds an unseeded entry or a bye. */
  lemma SeedSlot(entries: seq<Entry>, k: nat)
    requires |entries| >= 2 && SeedsFit(entries, PowerAtLeast(|entries|)) && k < PowerAtLeast(|entries|)
    ensures |SeedOrder(Depth(|entries|))| == PowerAtLeast(|entries|) == 2 * |SeededRound(entries)|
    ensures var order, slot := SeedOrder(Depth(|entries|)), SideOf(SeededRound(entries)[k / 2], k % 2 + 1);
            && (forall e :: 0 <= e < |entries| && entries[e].seed == order[k] ==> slot == Entrant(entries[e].team))
            && ((forall e :: 0 <= e < |entries| ==> entries[e].seed != order[k]) ==>
                  slot == ByeSlot || exists e :: 0 <= e < |entries| && entries[e].seed <= 0 && slot == Entrant(entries[e].team))
  {
    var order := SeedOrder(Depth(|entries|));
    OrderSize(|entries|);
    SeedOrderPermutes(Depth(|entries|));
    SlotOfPlace(entries, k);
    forall e: nat | e < |entries| && entries[e].seed == order[k]
      ensures PlacedAt(entries, order, k) == Some(e)
    {
      PlaceOfSeed(entries, order, k, e);
    }
    if forall e :: 0 <= e < |entries| ==> entries[e].seed != order[k] { PlaceOfNone(entries, order, k); }
  }

  lemma OrderSize(n: nat)
    requires n >= 2
    ensures Depth(n) >= 1 && Pow2(Depth(n)) == PowerAtLeast(n)
  {
    assert IsPow2(PowerAtLeast(n)) && PowerAtLeast(n) >= 2;
  }

  lemma {:induction false} LeadOfBlock(k: nat, j: nat, b: nat)
    requires j < k && b < Pow2(k - j)
    ensures BlockStart(j, b) < Pow2(k) && SeedOrder(k)[BlockStart(j, b)] == SeedOrder(k - j)[b]
  {
    if j > 0 {
      LeadOfBlock(k - 1, j - 1, b);
      DoubledPair(SeedOrder(k - 1), BlockStart(j - 1, b));
    }
  }

  /** In every round the best seeds of two facing blocks sum to one more than the number of
      blocks: with results by seed, round j + 1 pairs them like the first round of a bracket
      of that size. */
  lemma FacingBlocksSum(k: nat, j: nat, b: nat)
    requires j < k && 2 * b + 1 < Pow2(k - j)
    ensures BlockStart(j, 2 * b) < Pow2(k) && BlockStart(j, 2 * b + 1) < Pow2(k)
    ensures SeedOrder(k)[BlockStart(j, 2 * b)] + SeedOrder(k)[BlockStart(j, 2 * b + 1)] == Pow2(k - j) + 1
  {
    LeadOfBlock(k, j, 2 * b);
    LeadOfBlock(k, j, 2 * b + 1);
    FirstRoundSeedsSum(k - j, b);
  }

  /** Unseeded entries fill the free slots in their own order. */
  lemma UnseededInOrder(entries: seq<Entry>, order: seq<int>, e: nat, f: nat, i: nat, j: nat)
    requires e < f < |entries| && entries[e].seed <= 0 && entries[f].seed <= 0 && i < |order| && j < |order|
    requires Placed(entries, order)[i] == Some(e) && Placed(entries, order)[j] == Some(f)
    ensures i < j
  {
    UnseededInFreeSlot(entries, order, e, i);
    UnseededInFreeSlot(entries, order, f, j);
    if j <= i { FreeSlotsMonotone(entries, order, j, i); }
  }
}
