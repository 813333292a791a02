/** A group-knockout from its groups through every request. */
module GroupKnockout {
  import opened Seqs
  import opened Wrappers
  import opened Powers
  import opened Bracket
  import RoundRobin
  import opened GroupSetup
  import opened Scoring
  import opened Tables
  import opened Progression
  import opened Coherence
  import opened Persist
  import opened Provenance
  import opened Liveness

  /** Groups that SetGroups lets through, for participants with distinct names. */
  ghost predicate Settable(specs: seq<GroupSpec>, names: map<Team, int>) {
    && LegalGroups(specs, names.Keys)
    && NamesDistinct(names)
  }

  // Where the teams of a group sit in the whole list

  lemma {:induction false} GroupTeams(specs: seq<GroupSpec>, g: nat) returns (start: nat)
    requires g < |specs|
    ensures start + |specs[g].teams| <= |AllTeams(specs)|
    ensures AllTeams(specs)[start..start + |specs[g].teams|] == specs[g].teams
    ensures start == |AllTeams(specs[..g])|
  {
    start := |AllTeams(specs[..g])|;
    AllTeamsPrefix(specs, g + 1);
    assert specs[..g + 1][..g] == specs[..g];
    assert AllTeams(specs[..g + 1]) == AllTeams(specs[..g]) + specs[g].teams;
  }

  /** Teams of a group are valid and different. */
  lemma TeamsOfSpec(specs: seq<GroupSpec>, names: map<Team, int>, g: nat)
    requires Settable(specs, names) && g < |specs|
    ensures NoRepeats(specs[g].teams)
    ensures forall i :: 0 <= i < |specs[g].teams| ==> specs[g].teams[i] in names
  {
    var start := GroupTeams(specs, g);
    var all := AllTeams(specs);
    forall i | 0 <= i < |specs[g].teams|
      ensures specs[g].teams[i] == all[start + i]
    {
    }
  }

  /** No team is in two groups. */
  lemma GroupsDisjoint(specs: seq<GroupSpec>, names: map<Team, int>, g: nat, h: nat)
    requires Settable(specs, names) && g < h < |specs|
    ensures forall i, j :: 0 <= i < |specs[g].teams| && 0 <= j < |specs[h].teams| ==>
              specs[g].teams[i] != specs[h].teams[j]
  {
    var a := GroupTeams(specs, g);
    var b := GroupTeams(specs, h);
    assert specs[..h][..g + 1] == specs[..g + 1] && specs[..g + 1][..g] == specs[..g];
    AllTeamsPrefix(specs[..h], g + 1);
    forall i, j | 0 <= i < |specs[g].teams| && 0 <= j < |specs[h].teams|
      ensures specs[g].teams[i] != specs[h].teams[j]
    {
      assert AllTeams(specs)[a + i] == specs[g].teams[i] && AllTeams(specs)[b + j] == specs[h].teams[j];
    }
  }

  // The group stage

  lemma GroupFixture(specs: seq<GroupSpec>, g: nat, k: nat)
    requires g < |specs| && k < |GroupFixtures(specs, g)|
    ensures var n, m := |specs[g].teams|, GroupFixtures(specs, g)[k];
            && k < |RoundRobin.Schedule(n)|
            && var p := RoundRobin.Schedule(n)[k];
               && 0 <= p.a < n && 0 <= p.b < n && p.a != p.b
               && m.slot1 == Entrant(specs[g].teams[p.a]) && m.slot2 == Entrant(specs[g].teams[p.b])
               && m.next == -1 && m.group == g
  {
    RoundRobin.FixturePairsTwo(|specs[g].teams|, k);
  }

  predicate StageMatchIn(specs: seq<GroupSpec>, m: Match) {
    && m.next == -1 && 0 <= m.group < |specs|
    && m.slot1.Entrant? && m.slot2.Entrant? && m.slot1 != m.slot2
    && m.slot1.team in specs[m.group].teams && m.slot2.team in specs[m.group].teams
  }

  predicate Plays(m: Match, side: int, g: int, t: Team) {
    m.group == g && SideOf(m, side) == Entrant(t)
  }

  ghost predicate HasFixture(stage: seq<Match>, g: int, t: Team) {
    exists m, side :: 0 <= m < |stage| && 1 <= side <= 2 && Plays(stage[m], side, g, t)
  }

  ghost predicate StageMatches(specs: seq<GroupSpec>, stage: seq<Match>) {
    forall m :: 0 <= m < |stage| ==> StageMatchIn(specs, stage[m])
  }

  /** Two teams of one group in every match, and a match for every team of every group. */
  ghost predicate StageOk(specs: seq<GroupSpec>, stage: seq<Match>) {
    && StageMatches(specs, stage)
    && (forall g, x :: 0 <= g < |specs| && 0 <= x < |specs[g].teams| ==> HasFixture(stage, g, specs[g].teams[x]))
  }

  lemma StageIsOk(specs: seq<GroupSpec>, names: map<Team, int>)
    requires Settable(specs, names)
    ensures StageOk(specs, GroupStage(specs, |specs|))
  {
    StageMatchesAre(specs, names);
    forall g: nat, x: nat | g < |specs| && x < |specs[g].teams|
      ensures HasFixture(GroupStage(specs, |specs|), g, specs[g].teams[x])
    {
      FixtureOf(specs, g, x);
      StageHas(specs, |specs|, g, specs[g].teams[x]);
    }
  }

  lemma StageMatchesAre(specs: seq<GroupSpec>, names: map<Team, int>)
    requires Settable(specs, names)
    ensures StageMatches(specs, GroupStage(specs, |specs|))
  {
    var ok := (m: Match) => StageMatchIn(specs, m);
    forall g: nat | g < |specs|
      ensures All(GroupFixtures(specs, g), ok)
    {
      GroupMatchesIn(specs, names, g);
    }
    StageOfGroups(specs, |specs|, ok);
    var stage := GroupStage(specs, |specs|);
    assert forall m :: 0 <= m < |stage| ==> ok(stage[m]);
  }

  lemma GroupMatchesIn(specs: seq<GroupSpec>, names: map<Team, int>, g: nat)
    requires Settable(specs, names) && g < |specs|
    ensures StageMatches(specs, GroupFixtures(specs, g))
  {
    TeamsOfSpec(specs, names, g);
    forall k: nat | k < |GroupFixtures(specs, g)|
      ensures StageMatchIn(specs, GroupFixtures(specs, g)[k])
    {
      GroupFixture(specs, g, k);
    }
  }

  ghost predicate All(ms: seq<Match>, ok: Match -> bool) {
    forall m :: 0 <= m < |ms| ==> ok(ms[m])
  }

  lemma AllJoined(a: seq<Match>, b: seq<Match>, stage: seq<Match>, ok: Match -> bool)
    requires All(a, ok) && All(b, ok) && stage == a + b
    ensures All(stage, ok)
  {
  }

  lemma {:induction false} StageOfGroups(specs: seq<GroupSpec>, n: nat, ok: Match -> bool)
    requires n <= |specs| && forall g :: 0 <= g < n ==> All(GroupFixtures(specs, g), ok)
    ensures All(GroupStage(specs, n), ok)
  {
    if n > 0 {
      StageOfGroups(specs, n - 1, ok);
      AllJoined(GroupStage(specs, n - 1), GroupFixtures(specs, n - 1), GroupStage(specs, n), ok);
    }
  }

  lemma StageHas(specs: seq<GroupSpec>, n: nat, g: nat, t: Team)
    requires g < n <= |specs| && HasFixture(GroupFixtures(specs, g), g, t)
    ensures HasFixture(GroupStage(specs, n), g, t)
  {
    FixtureJoined(GroupStage(specs, g), GroupFixtures(specs, g), GroupStage(specs, g + 1), g, t);
    StageKeeps(specs, g + 1, n, g, t);
  }

  lemma {:induction false} StageKeeps(specs: seq<GroupSpec>, n: nat, m: nat, g: nat, t: Team)
    requires n <= m <= |specs| && HasFixture(GroupStage(specs, n), g, t)
    ensures HasFixture(GroupStage(specs, m), g, t)
  {
    if n < m {
      StageKeeps(specs, n, m - 1, g, t);
      FixtureJoined(GroupStage(specs, m - 1), GroupFixtures(specs, m - 1), GroupStage(specs, m), g, t);
    }
  }

  lemma FixtureJoined(a: seq<Match>, b: seq<Match>, stage: seq<Match>, g: int, t: Team)
    requires stage == a + b && (HasFixture(a, g, t) || HasFixture(b, g, t))
    ensures HasFixture(stage, g, t)
  {
    if m, side :| 0 <= m < |a| && 1 <= side <= 2 && Plays(a[m], side, g, t) {
      assert Plays(stage[m], side, g, t);
    } else {
      var m, side :| 0 <= m < |b| && 1 <= side <= 2 && Plays(b[m], side, g, t);
      assert Plays(stage[|a| + m], side, g, t);
    }
  }

  /** Every team of a group meets another one in it. */
  lemma FixtureOf(specs: seq<GroupSpec>, g: nat, x: nat)
    requires g < |specs| && x < |specs[g].teams| && |specs[g].teams| >= 2
    ensures HasFixture(GroupFixtures(specs, g), g, specs[g].teams[x])
  {
    var y := if x == 0 then 1 else 0;
    var lo, hi := if x < y then x else y, if x < y then y else x;
    RoundRobin.EveryPairMeetsOnce(|specs[g].teams|, lo, hi);
    var i :| RoundRobin.MeetAt(RoundRobin.Schedule(|specs[g].teams|), lo, hi, i);
    FixtureSide(specs, g, i, x);
  }

  /** Team x's side of fixture i of group g. */
  lemma FixtureSide(specs: seq<GroupSpec>, g: nat, i: nat, x: nat)
    requires g < |specs| && i < |RoundRobin.Schedule(|specs[g].teams|)| && x < |specs[g].teams|
    requires var p := RoundRobin.Schedule(|specs[g].teams|)[i]; p.a == x || p.b == x
    ensures HasFixture(GroupFixtures(specs, g), g, specs[g].teams[x])
  {
    var side := if RoundRobin.Schedule(|specs[g].teams|)[i].a == x then 1 else 2;
    assert i < |GroupFixtures(specs, g)|;
    GroupFixture(specs, g, i);
    assert Plays(GroupFixtures(specs, g)[i], side, g, specs[g].teams[x]);
  }

  // The knockout

  predicate PlaceInGroup(specs: seq<GroupSpec>, s: Slot) {
    s.Placement? && s.group < |specs| && 1 <= s.rank <= |specs[s.group].teams|
  }

  /** Different places that exist. */
  ghost predicate EntriesOk(specs: seq<GroupSpec>, entries: seq<Slot>) {
    NoRepeats(entries) && forall i :: 0 <= i < |entries| ==> PlaceInGroup(specs, entries[i])
  }

  /** The slot written for place i of the knockout's first round. */
  function EntryIn(entries: seq<Slot>, i: int): Slot {
    if 0 <= i < |entries| then entries[i] else ByeSlot
  }

  /** A place of the first round has its entry, a later one is fed. */
  predicate KnockoutSide(ko: seq<Match>, f: nat, entries: seq<Slot>, j: int, side: int)
    requires 0 <= j < |ko|
  {
    && FedOrEntry(ko[j], side, EntryIn(entries, 2 * j + side - 1))
    && (SideOf(ko[j], side) == Feed ==> j >= f)
  }

  ghost predicate KnockoutOk(ko: seq<Match>, f: nat, entries: seq<Slot>) {
    && f >= 1 && PerfectTree(ko, f)
    && (forall j, side :: 0 <= j < |ko| && 1 <= side <= 2 ==> KnockoutSide(ko, f, entries, j, side))
  }

  lemma PaddedEntry(slots: seq<Slot>, j: nat, side: nat)
    requires |slots| >= 2 && 1 <= side <= 2 && j < |SlotRound(Padded(slots))|
    ensures SideOf(SlotRound(Padded(slots))[j], side) == EntryIn(slots, 2 * j + side - 1)
  {
    var k := 2 * j + side - 1;
    assert k < |Padded(slots)|;
    assert Padded(slots)[k] == if k < |slots| then slots[k] else ByeSlot;
  }

  lemma WiredSide(first: seq<Match>, j: nat, side: nat)
    requires 1 <= side <= 2 && j < 2 * |first| - 1
    ensures var ko := Regrouped(Wired(first), -1);
            |ko| == 2 * |first| - 1 && ko[j].group == -1
            && SideOf(ko[j], side) == if j >= |first| then Feed else SideOf(first[j], side)
  {
  }

  lemma WiredKnockoutOk(slots: seq<Slot>)
    requires |slots| >= 2 && forall i :: 0 <= i < |slots| ==> slots[i] != Feed
    ensures KnockoutOk(Regrouped(Wired(SlotRound(Padded(slots))), -1), PowerAtLeast(|slots|) / 2, slots)
  {
    var first := SlotRound(Padded(slots));
    PaddedSize(slots);
    WiredIsPerfectTree(first, -1);
    WiredSidesOk(slots, first);
  }

  lemma WiredSidesOk(slots: seq<Slot>, first: seq<Match>)
    requires |slots| >= 2 && forall i :: 0 <= i < |slots| ==> slots[i] != Feed
    requires first == SlotRound(Padded(slots)) && |first| >= 1
    ensures var ko := Regrouped(Wired(first), -1);
            forall j, side :: 0 <= j < |ko| && 1 <= side <= 2 ==> KnockoutSide(ko, |first|, slots, j, side)
  {
    forall j: nat, side: nat | j < 2 * |first| - 1 && 1 <= side <= 2
      ensures KnockoutSide(Regrouped(Wired(first), -1), |first|, slots, j, side)
    {
      if j < |first| { PaddedEntry(slots, j, side); }
      WiredSideOk(first, slots, j, side);
    }
  }

  lemma WiredSideOk(first: seq<Match>, slots: seq<Slot>, j: nat, side: nat)
    requires 1 <= side <= 2 && j < 2 * |first| - 1 && EntryIn(slots, 2 * j + side - 1) != Feed
    requires j < |first| ==> SideOf(first[j], side) == EntryIn(slots, 2 * j + side - 1)
    ensures j < |Regrouped(Wired(first), -1)| && KnockoutSide(Regrouped(Wired(first), -1), |first|, slots, j, side)
  {
    WiredSide(first, j, side);
  }

  lemma KnockoutIsOk(specs: seq<GroupSpec>, names: map<Team, int>)
    requires Settable(specs, names)
    ensures KnockoutOk(Knockout(specs), PowerAtLeast(|Advancers(specs)|) / 2, Advancers(specs))
  {
    AdvancersSound(specs, names.Keys);
    WiredKnockoutOk(Advancers(specs));
  }

  // The whole draw

  /** What the proofs below know of a group-knockout draw: its group stage first, then a
      knockout whose leaves are the entries in order. */
  datatype Plan = Plan(specs: seq<GroupSpec>, names: map<Team, int>, ms: seq<Match>, start: nat, entries: seq<Slot>)

  predicate RowEntry(p: Plan, k: int)
    requires 2 * p.start <= k < 2 * |p.ms|
  {
    FedOrEntry(p.ms[k / 2], k % 2 + 1, EntryIn(p.entries, k - 2 * p.start))
  }

  ghost predicate Drawn(p: Plan) {
    && Settable(p.specs, p.names) && DrawOk(p.ms, p.names) && p.start <= |p.ms|
    && StageOk(p.specs, p.ms[..p.start]) && EntriesOk(p.specs, p.entries)
    && (forall k :: 2 * p.start <= k < 2 * |p.ms| ==> RowEntry(p, k))
  }

  /** In the whole draw the shifted feeder is still the only one. */
  lemma ShiftedFeeder(specs: seq<GroupSpec>, stage: seq<Match>, ko: seq<Match>, f: nat, entries: seq<Slot>, j: nat, side: nat)
    requires StageOk(specs, stage) && KnockoutOk(ko, f, entries) && f <= j < |ko| && 1 <= side <= 2
    ensures FeedOk(Joined(stage, ko), |stage| + j, side)
  {
    var ms, s, i := Joined(stage, ko), |stage|, FeederOf(f, j, side);
    assert OnlyFeeder(ko, j, side, i) && 0 <= i < j;
    forall x: nat | x < |ms|
      ensures (ms[x].next == s + j && ms[x].nextSlot == side) <==> x == s + i
    {
      ShiftedEdge(specs, stage, ko, x, j, side, i);
    }
    assert KnockoutSide(ko, f, entries, j, side) && KnockoutSide(ko, f, entries, i, 1);
    assert FedBy(ms, s + j, side, s + i);
  }

  lemma ShiftedEdge(specs: seq<GroupSpec>, stage: seq<Match>, ko: seq<Match>, x: nat, j: nat, side: nat, i: nat)
    requires StageOk(specs, stage) && x < |Joined(stage, ko)| && OnlyFeeder(ko, j, side, i)
    ensures var m := Joined(stage, ko)[x]; (m.next == |stage| + j && m.nextSlot == side) <==> x == |stage| + i
  {
    if x < |stage| {
      assert StageMatchIn(specs, stage[x]);
    } else {
      assert Joined(stage, ko)[x] == Shift(ko[x - |stage|], |stage|);
    }
  }

  lemma ShiftedSlotOk(ms: seq<Match>, m: nat, side: nat, names: map<Team, int>, x: Match, start: nat, entry: Slot)
    requires m < |ms| && ms[m] == Shift(x, start) && FedOrEntry(x, side, entry)
    requires entry == ByeSlot || (entry.Placement? && entry.rank >= 1 && NamesDistinct(names))
    requires SideOf(x, side) == Feed ==> FeedOk(ms, m, side)
    ensures SlotOk(ms, m, side, names) && FedOrEntry(ms[m], side, entry)
  {
  }

  lemma JoinedSlotOk(specs: seq<GroupSpec>, names: map<Team, int>, stage: seq<Match>, ko: seq<Match>, f: nat,
                     entries: seq<Slot>, j: nat, side: nat)
    requires StageOk(specs, stage) && KnockoutOk(ko, f, entries) && EntriesOk(specs, entries)
    requires j < |ko| && 1 <= side <= 2 && NamesDistinct(names)
    ensures SlotOk(Joined(stage, ko), |stage| + j, side, names)
    ensures FedOrEntry(Joined(stage, ko)[|stage| + j], side, EntryIn(entries, 2 * j + side - 1))
  {
    assert KnockoutSide(ko, f, entries, j, side);
    if SideOf(ko[j], side) == Feed { ShiftedFeeder(specs, stage, ko, f, entries, j, side); }
    ShiftedSlotOk(Joined(stage, ko), |stage| + j, side, names, ko[j], |stage|, EntryIn(entries, 2 * j + side - 1));
  }

  lemma StageSlotsOk(specs: seq<GroupSpec>, names: map<Team, int>, stage: seq<Match>, ko: seq<Match>, m: nat, side: nat)
    requires Settable(specs, names) && StageOk(specs, stage) && m < |stage| && 1 <= side <= 2
    ensures SlotOk(Joined(stage, ko), m, side, names)
  {
    assert StageMatchIn(specs, stage[m]);
    TeamsOfSpec(specs, names, stage[m].group);
    EntrantSlotOk(Joined(stage, ko), m, side, names, SideOf(stage[m], side));
  }

  lemma EntrantSlotOk(ms: seq<Match>, m: nat, side: nat, names: map<Team, int>, s: Slot)
    requires m < |ms| && SideOf(ms[m], side) == s && s.Entrant? && s.team in names
    ensures SlotOk(ms, m, side, names)
  {
  }

  lemma JoinedEdges(specs: seq<GroupSpec>, stage: seq<Match>, ko: seq<Match>, f: nat, m: nat)
    requires StageOk(specs, stage) && EdgesForward(ko, f) && m < |stage| + |ko|
    ensures var ms := Joined(stage, ko); ms[m].next < 0 || (m < ms[m].next < |ms| && 1 <= ms[m].nextSlot <= 2)
  {
    if m < |stage| {
      assert StageMatchIn(specs, stage[m]);
    } else {
      assert Joined(stage, ko)[m] == Shift(ko[m - |stage|], |stage|);
    }
  }

  lemma JoinedIsDrawn(specs: seq<GroupSpec>, names: map<Team, int>, stage: seq<Match>, ko: seq<Match>, f: nat, entries: seq<Slot>)
    requires Settable(specs, names) && StageOk(specs, stage) && KnockoutOk(ko, f, entries) && EntriesOk(specs, entries)
    ensures Drawn(Plan(specs, names, Joined(stage, ko), |stage|, entries))
  {
    var p := Plan(specs, names, Joined(stage, ko), |stage|, entries);
    JoinedDrawOk(specs, names, stage, ko, f, entries);
    assert p.ms[..p.start] == stage;
    forall k: nat | 2 * p.start <= k < 2 * |p.ms|
      ensures RowEntry(p, k)
    {
      JoinedRow(p, stage, ko, f, k);
    }
  }

  lemma JoinedRow(p: Plan, stage: seq<Match>, ko: seq<Match>, f: nat, k: nat)
    requires StageOk(p.specs, stage) && KnockoutOk(ko, f, p.entries) && EntriesOk(p.specs, p.entries)
    requires NamesDistinct(p.names) && p.ms == Joined(stage, ko) && p.start == |stage| && 2 * p.start <= k < 2 * |p.ms|
    ensures RowEntry(p, k)
  {
    HalfIndex(k, p.start);
    JoinedSlotOk(p.specs, p.names, stage, ko, f, p.entries, k / 2 - p.start, k % 2 + 1);
  }

  lemma HalfIndex(k: nat, start: nat)
    requires 2 * start <= k
    ensures start + (k / 2 - start) == k / 2 && 2 * (k / 2 - start) + (k % 2 + 1) - 1 == k - 2 * start
  {
  }

  lemma JoinedDrawOk(specs: seq<GroupSpec>, names: map<Team, int>, stage: seq<Match>, ko: seq<Match>, f: nat, entries: seq<Slot>)
    requires Settable(specs, names) && StageOk(specs, stage) && KnockoutOk(ko, f, entries) && EntriesOk(specs, entries)
    ensures DrawOk(Joined(stage, ko), names)
  {
    var ms := Joined(stage, ko);
    forall m: nat | m < |ms|
      ensures ms[m].next < 0 || (m < ms[m].next < |ms| && 1 <= ms[m].nextSlot <= 2)
    {
      JoinedEdges(specs, stage, ko, f, m);
    }
    forall m: nat, side: nat | m < |ms| && 1 <= side <= 2
      ensures SlotOk(ms, m, side, names)
    {
      if m < |stage| { StageSlotsOk(specs, names, stage, ko, m, side); }
      else { JoinedSlotOk(specs, names, stage, ko, f, entries, m - |stage|, side); }
    }
    forall m: nat | m < |ms|
      ensures ms[m].group >= 0 ==> ms[m].slot1.Entrant? && ms[m].slot2.Entrant? && ms[m].slot1 != ms[m].slot2
    {
      if m < |stage| {
        assert StageMatchIn(specs, stage[m]);
      } else {
        assert KnockoutSide(ko, f, entries, m - |stage|, 1);
      }
    }
  }

  function PlanOf(specs: seq<GroupSpec>, names: map<Team, int>): Plan {
    Plan(specs, names, GroupDraw(specs), |GroupStage(specs, |specs|)|, Advancers(specs))
  }

  /** Groups that SetGroups lets through give a draw in which every slot has exactly one
      source, the knockout's leaves are the advancing places, and storing it succeeds. */
  lemma GroupDrawOk(specs: seq<GroupSpec>, names: map<Team, int>)
    requires Settable(specs, names)
    ensures Drawn(PlanOf(specs, names)) && DrawOk(GroupDraw(specs), names) && KnownGroups(GroupDraw(specs))
  {
    StageIsOk(specs, names);
    KnockoutIsOk(specs, names);
    AdvancersSound(specs, names.Keys);
    JoinedIsDrawn(specs, names, GroupStage(specs, |specs|), Knockout(specs), PowerAtLeast(|Advancers(specs)|) / 2,
                  Advancers(specs));
    GroupsKnown(PlanOf(specs, names));
  }

  /** Every group named by an entry exists: storing the draw succeeds. */
  lemma GroupsKnown(p: Plan)
    requires Drawn(p)
    ensures KnownGroups(p.ms)
  {
    LastGroupHasMatch(p);
    forall m: nat, side: nat | m < |p.ms| && 1 <= side <= 2
      ensures KnownGroup(SideOf(p.ms[m], side), MaxGroup(p.ms))
    {
      SideKnown(p, m, side);
    }
    assert forall m :: 0 <= m < |p.ms| ==>
             KnownGroup(SideOf(p.ms[m], 1), MaxGroup(p.ms)) && KnownGroup(SideOf(p.ms[m], 2), MaxGroup(p.ms));
  }

  lemma SideKnown(p: Plan, m: nat, side: nat)
    requires Drawn(p) && m < |p.ms| && 1 <= side <= 2
    ensures KnownGroup(SideOf(p.ms[m], side), |p.specs| - 1)
  {
    if m < p.start {
      assert StageMatchIn(p.specs, p.ms[..p.start][m]);
    } else {
      var k := 2 * m + side - 1;
      assert k / 2 == m && k % 2 + 1 == side;
      assert RowEntry(p, k);
    }
  }

  lemma LastGroupHasMatch(p: Plan)
    requires Drawn(p)
    ensures |p.specs| - 1 <= MaxGroup(p.ms)
  {
    var g := |p.specs| - 1;
    var m, side := FixtureFor(p, g, p.specs[g].teams[0]);
    MaxGroupBound(p.ms, m);
  }

  lemma {:induction false} MaxGroupBound(ms: seq<Match>, m: nat)
    requires m < |ms|
    ensures ms[m].group <= MaxGroup(ms)
  {
    if m < |ms| - 1 { MaxGroupBound(ms[..|ms| - 1], m); }
  }

  // The stored event in any later state

  function Stored(p: Plan): DB
    requires EdgesInside(p.ms)
  {
    Persisted(p.ms, p.names)
  }

  /** A coherent state of the event that still has the stored draw. */
  ghost predicate StateOf(p: Plan, db: DB) {
    Drawn(p) && Laid(Stored(p)) && SameDraw(Stored(p), db) && Coherent(db)
  }

  /** A slot of the group stage as stored: a fixed team of its group. */
  lemma StageRow(p: Plan, k: nat)
    requires Drawn(p) && k < 2 * p.start
    ensures var row, m := Stored(p).slots[k], p.ms[k / 2];
            && 0 <= m.group < |p.specs| && Stored(p).matches[k / 2].group == Some(m.group)
            && row.source == Fixed && SideOf(m, k % 2 + 1).Entrant?
            && row.team == Some(SideOf(m, k % 2 + 1).team) && row.team.value in p.specs[m.group].teams
  {
    assert StageMatchIn(p.specs, p.ms[..p.start][k / 2]);
    EntrantRow(p.ms, p.names, k);
  }

  lemma EntrantRow(ms: seq<Match>, names: map<Team, int>, k: nat)
    requires DrawOk(ms, names) && k / 2 < |ms| && SideOf(ms[k / 2], k % 2 + 1).Entrant? && ms[k / 2].group >= 0
    ensures var row := Persisted(ms, names).slots[k];
            && Persisted(ms, names).matches[k / 2].group == Some(ms[k / 2].group)
            && row.source == Fixed && row.team == Some(SideOf(ms[k / 2], k % 2 + 1).team)
  {
    StoredRow(ms, names, k / 2, k % 2 + 1);
  }

  /** A slot of the knockout as stored: fed, or the entry written for it, or a bye. */
  lemma EntryRow(p: Plan, k: nat)
    requires Drawn(p) && 2 * p.start <= k < 2 * |p.ms|
    ensures Stored(p).matches[k / 2].group == None
    ensures Stored(p).slots[k].source.MatchWinner? || HoldsEntry(Stored(p).slots[k], EntryIn(p.entries, k - 2 * p.start))
  {
    assert RowEntry(p, k);
    LeafRow(p.ms, p.names, k, EntryIn(p.entries, k - 2 * p.start));
  }

  /** A group match of the event, and who plays it. */
  lemma GroupRow(p: Plan, db: DB, k: nat, g: nat)
    requires StateOf(p, db) && k < |db.slots| && InGroup(db, k / 2, g)
    ensures g < |p.specs| && db.slots[k].team.Some? && db.slots[k].team.value in p.specs[g].teams
  {
    if k < 2 * p.start { StageRow(p, k); } else { EntryRow(p, k); }
  }

  lemma FixtureRow(p: Plan, db: DB, m: nat, side: nat, g: nat, t: Team)
    requires StateOf(p, db) && m < p.start && 1 <= side <= 2 && Plays(p.ms[m], side, g, t)
    ensures Belongs(db, g, t)
  {
    var k := 2 * m + side - 1;
    assert k / 2 == m && k % 2 + 1 == side;
    StageRow(p, k);
    InGroupNow(Stored(p), db, k, g);
  }

  lemma InGroupNow(stored: DB, db: DB, k: nat, g: nat)
    requires Laid(stored) && Laid(db) && SameDraw(stored, db) && k < |stored.slots|
    requires stored.slots[k].source == Fixed && stored.slots[k].team.Some? && InGroup(stored, k / 2, g)
    ensures k < |db.slots| && Belongs(db, g, stored.slots[k].team.value)
  {
    assert db.slots[k].owner == k / 2;
  }

  /** The players of a group are exactly the teams the organizer put in it. */
  lemma GroupPlayers(p: Plan, db: DB, g: nat, t: Team)
    requires StateOf(p, db) && g < |p.specs|
    ensures Belongs(db, g, t) <==> t in p.specs[g].teams
  {
    if Belongs(db, g, t) {
      var k :| 0 <= k < |db.slots| && db.slots[k].team == Some(t) && InGroup(db, db.slots[k].owner, g);
      GroupRow(p, db, k, g);
    }
    if t in p.specs[g].teams {
      var m, side := FixtureFor(p, g, t);
      FixtureRow(p, db, m, side, g, t);
    }
  }

  lemma FixtureFor(p: Plan, g: nat, t: Team) returns (m: nat, side: nat)
    requires Drawn(p) && g < |p.specs| && t in p.specs[g].teams
    ensures m < p.start && 1 <= side <= 2 && Plays(p.ms[m], side, g, t)
  {
    m, side := FixtureIn(p.specs, p.ms[..p.start], g, t);
  }

  lemma FixtureIn(specs: seq<GroupSpec>, stage: seq<Match>, g: nat, t: Team) returns (m: nat, side: nat)
    requires StageOk(specs, stage) && g < |specs| && t in specs[g].teams
    ensures m < |stage| && 1 <= side <= 2 && Plays(stage[m], side, g, t)
  {
    var x :| 0 <= x < |specs[g].teams| && specs[g].teams[x] == t;
    assert HasFixture(stage, g, specs[g].teams[x]);
    m, side :| 0 <= m < |stage| && 1 <= side <= 2 && Plays(stage[m], side, g, t);
  }

  /** A group of the event has as many places as teams, each for a different one. */
  lemma GroupTable(p: Plan, db: DB, g: nat)
    requires StateOf(p, db) && g < |p.specs|
    ensures |Standings(db, g)| == |p.specs[g].teams|
    ensures NoRepeats(Map(TeamOf, Standings(db, g)))
    ensures forall t :: t in Map(TeamOf, Standings(db, g)) <==> t in p.specs[g].teams
  {
    TeamsOfSpec(p.specs, p.names, g);
    forall t: Team
      ensures Belongs(db, g, t) <==> t in p.specs[g].teams
    {
      GroupPlayers(p, db, g, t);
    }
    assert forall t :: Belongs(db, g, t) ==> t in db.names;
    StandingsPermuteTeams(db, g);
    SameMembersSameLength(Map(TeamOf, Standings(db, g)), p.specs[g].teams);
  }

  /** Fed as the entry says; a bye stays empty. */
  predicate LeafHolds(row: SlotRow, entry: Slot) {
    row.source == SourceOf(entry) && (entry == ByeSlot ==> row.team == None)
  }

  /** A leaf of the knockout is a bye or the entry written for that place. */
  lemma KnockoutLeaf(p: Plan, db: DB, k: nat)
    requires StateOf(p, db) && k < |db.slots| && Leaf(db, k)
    ensures k >= 2 * p.start && LeafHolds(db.slots[k], EntryIn(p.entries, k - 2 * p.start))
  {
    if k < 2 * p.start { StageRow(p, k); } else { EntryRow(p, k); }
  }

  /** Two leaves of the knockout never hold the same team: their entries differ, a
      group places every team once, and no team is in two groups. */
  lemma EntriesDiffer(p: Plan, db: DB, j: nat, k: nat)
    requires StateOf(p, db) && j < k < |db.slots| && Leaf(db, j) && Leaf(db, k)
    requires db.slots[j].team.Some?
    ensures db.slots[j].team != db.slots[k].team
  {
    KnockoutLeaf(p, db, j);
    KnockoutLeaf(p, db, k);
    if db.slots[k].team.Some? {
      EntriesHoldDifferent(p, db, j, k, p.entries[j - 2 * p.start], p.entries[k - 2 * p.start]);
    }
  }

  lemma EntriesHoldDifferent(p: Plan, db: DB, j: nat, k: nat, a: Slot, b: Slot)
    requires StateOf(p, db) && j < |db.slots| && k < |db.slots| && a != b
    requires PlaceInGroup(p.specs, a) && PlaceInGroup(p.specs, b)
    requires db.slots[j].source == SourceOf(a) && db.slots[k].source == SourceOf(b)
    requires db.slots[j].team.Some? && db.slots[k].team.Some?
    ensures db.slots[j].team != db.slots[k].team
  {
    PlacedTeam(db, j, a);
    PlacedTeam(db, k, b);
    PlacesDiffer(p, db, a, b);
  }

  /** The team an entry holds is the one its group places there. */
  lemma PlacedTeam(db: DB, k: nat, s: Slot)
    requires Coherent(db) && k < |db.slots| && s.Placement?
    requires db.slots[k].source == SourceOf(s) && db.slots[k].team.Some?
    ensures 1 <= s.rank <= |Standings(db, s.group)|
    ensures db.slots[k].team.value == Map(TeamOf, Standings(db, s.group))[s.rank - 1]
  {
    assert SlotSettled(db, k);
  }

  lemma PlacesDiffer(p: Plan, db: DB, a: Slot, b: Slot)
    requires StateOf(p, db) && a != b && PlaceInGroup(p.specs, a) && PlaceInGroup(p.specs, b)
    requires 1 <= a.rank <= |Standings(db, a.group)| && 1 <= b.rank <= |Standings(db, b.group)|
    ensures Map(TeamOf, Standings(db, a.group))[a.rank - 1] != Map(TeamOf, Standings(db, b.group))[b.rank - 1]
  {
    var t, u := Map(TeamOf, Standings(db, a.group))[a.rank - 1], Map(TeamOf, Standings(db, b.group))[b.rank - 1];
    PlaceIsMember(p, db, a);
    PlaceIsMember(p, db, b);
    if a.group < b.group {
      MembersDiffer(p.specs, p.names, a.group, b.group, t, u);
    } else if b.group < a.group {
      MembersDiffer(p.specs, p.names, b.group, a.group, u, t);
    }
  }

  /** A place is held by one of the group's teams, and no other place is by the same. */
  lemma PlaceIsMember(p: Plan, db: DB, s: Slot)
    requires StateOf(p, db) && PlaceInGroup(p.specs, s) && 1 <= s.rank <= |Standings(db, s.group)|
    ensures Map(TeamOf, Standings(db, s.group))[s.rank - 1] in p.specs[s.group].teams
    ensures NoRepeats(Map(TeamOf, Standings(db, s.group)))
  {
    GroupTable(p, db, s.group);
    assert Map(TeamOf, Standings(db, s.group))[s.rank - 1] in Map(TeamOf, Standings(db, s.group));
  }

  lemma MembersDiffer(specs: seq<GroupSpec>, names: map<Team, int>, g: nat, h: nat, t: Team, u: Team)
    requires Settable(specs, names) && g < h < |specs| && t in specs[g].teams && u in specs[h].teams
    ensures t != u
  {
    GroupsDisjoint(specs, names, g, h);
  }

  lemma StateLeavesDistinct(p: Plan, db: DB)
    requires StateOf(p, db)
    ensures LeavesDistinct(db)
  {
    forall j, k | 0 <= j < k < |db.slots| && Leaf(db, j) && Leaf(db, k) && db.slots[j].team.Some?
      ensures db.slots[j].team != db.slots[k].team
    {
      EntriesDiffer(p, db, j, k);
    }
  }

  lemma PlanStored(p: Plan)
    requires Drawn(p)
    ensures Laid(Stored(p)) && Coherent(Stored(p)) && FeedsOnce(Stored(p))
  {
    PersistedIsLaid(p.ms, p.names);
    FreshDrawIsCoherent(p.ms, p.names);
    var stored := Stored(p);
    forall j, k | 0 <= j < k < |stored.slots| && stored.slots[j].source.MatchWinner?
      ensures stored.slots[j].source != stored.slots[k].source
    {
      if stored.slots[j].source == stored.slots[k].source { StoredFeedsDiffer(p.ms, p.names, j, k); }
    }
  }

  lemma PlanRunsTrue(p: Plan, qs: seq<Request>)
    requires Drawn(p)
    ensures Laid(Stored(p)) && StateOf(p, Run(Stored(p), qs)) && FeedsOnce(Run(Stored(p), qs))
  {
    PlanStored(p);
    RunKeepsDraw(Stored(p), qs);
    SameDrawFeedsOnce(Stored(p), Run(Stored(p), qs));
  }

  /** Every state reached from a stored group-knockout by any requests is coherent and
      has distinct teams on its knockout leaves. */
  lemma GroupKnockoutRunsTrue(specs: seq<GroupSpec>, names: map<Team, int>, qs: seq<Request>)
    requires Settable(specs, names)
    ensures EdgesInside(GroupDraw(specs)) && Laid(Persisted(GroupDraw(specs), names))
    ensures var db := Run(Persisted(GroupDraw(specs), names), qs);
            Coherent(db) && FeedsOnce(db) && LeavesDistinct(db) && StateOf(PlanOf(specs, names), db)
  {
    GroupDrawOk(specs, names);
    PlanRunsTrue(PlanOf(specs, names), qs);
    StateLeavesDistinct(PlanOf(specs, names), Run(Persisted(GroupDraw(specs), names), qs));
  }

  /** In every such state a match never has the same team on both sides, and whoever
      won a match won an unbroken chain of matches up to it. */
  lemma GroupKnockoutPlayers(specs: seq<GroupSpec>, names: map<Team, int>, qs: seq<Request>, m: nat)
    requires Settable(specs, names) && m < |GroupDraw(specs)|
    ensures EdgesInside(GroupDraw(specs)) && Laid(Persisted(GroupDraw(specs), names))
    ensures var db := Run(Persisted(GroupDraw(specs), names), qs);
            && Laid(db) && m < |db.matches|
            && (TeamAt(db, m, 1).Some? ==> TeamAt(db, m, 1) != TeamAt(db, m, 2))
            && (db.matches[m].winner.Some? ==> WonItsWay(db, db.matches[m].winner.value, m))
  {
    GroupKnockoutRunsTrue(specs, names, qs);
    StatePlayers(PlanOf(specs, names), Run(Persisted(GroupDraw(specs), names), qs), m);
  }

  lemma StatePlayers(p: Plan, db: DB, m: nat)
    requires StateOf(p, db) && FeedsOnce(db) && LeavesDistinct(db) && m < |p.ms|
    ensures m < |db.matches|
    ensures TeamAt(db, m, 1).Some? ==> TeamAt(db, m, 1) != TeamAt(db, m, 2)
    ensures db.matches[m].winner.Some? ==> WonItsWay(db, db.matches[m].winner.value, m)
  {
    NeverAgainstItself(db, m);
    if db.matches[m].winner.Some? { WinnersWonTheirWay(db, db.matches[m].winner.value, m); }
  }

  /** An entry is open until its group is complete, and from then on holds the team
      its group places there. */
  lemma EntriesFollowTheirGroup(p: Plan, db: DB, k: nat)
    requires StateOf(p, db) && k < |db.slots| && db.slots[k].source.GroupPlacement?
    ensures var g, r := db.slots[k].source.group, db.slots[k].source.rank;
            && g < |p.specs| && 1 <= r <= |Standings(db, g)|
            && db.slots[k].team == if GroupComplete(db, g) then Some(Standings(db, g)[r - 1].team) else None
  {
    assert RowShape(db, db.slots[k]);
    KnockoutLeaf(p, db, k);
    assert PlaceInGroup(p.specs, EntryIn(p.entries, k - 2 * p.start));
    GroupTable(p, db, db.slots[k].source.group);
    PlacementDue(db, k);
  }

  lemma PlacementDue(db: DB, k: nat)
    requires Coherent(db) && k < |db.slots| && db.slots[k].source.GroupPlacement?
    ensures var g, r := db.slots[k].source.group, db.slots[k].source.rank;
            1 <= r <= |Standings(db, g)| ==>
              db.slots[k].team == if GroupComplete(db, g) then Some(Standings(db, g)[r - 1].team) else None
  {
    assert SlotSettled(db, k);
  }

  // A group left open for good

  /** The match has not started, and if it is a group match it is open. */
  predicate OpenMatch(db: DB, m: nat)
    requires m < |db.matches| && |db.scores| == |db.matches|
  {
    && db.scores[m] == []
    && (db.matches[m].status == Pending || (db.matches[m].status == Bye && db.matches[m].group.None?))
  }

  /** As stored, no match has started and every group match is open. */
  ghost predicate AllOpen(db: DB) {
    Coherent(db) && FeedsOnce(db) && forall m :: 0 <= m < |db.matches| ==> OpenMatch(db, m)
  }

  lemma StoredAllOpen(p: Plan)
    requires Drawn(p)
    ensures Laid(Stored(p)) && AllOpen(Stored(p))
  {
    PlanStored(p);
    forall m: nat | m < |p.ms|
      ensures OpenMatch(Stored(p), m)
    {
      if m < p.start { assert StageMatchIn(p.specs, p.ms[..p.start][m]); }
      StoredOpen(p.ms, p.names, m);
    }
  }

  lemma StoredOpen(ms: seq<Match>, names: map<Team, int>, m: nat)
    requires EdgesInside(ms) && m < |ms| && (ms[m].group >= 0 ==> ms[m].slot1.Entrant? && ms[m].slot2.Entrant?)
    ensures OpenMatch(Persisted(ms, names), m)
  {
  }

  /** A slot of the knockout's first round takes the place its entry names. */
  lemma EntryTakes(p: Plan, db: DB, k: nat)
    requires StateOf(p, db) && 2 * p.start <= k < |db.slots| && k - 2 * p.start < |p.entries|
    requires !db.slots[k].source.MatchWinner? && EntriesOk(p.specs, p.entries)
    ensures Takes(db, k, p.entries[k - 2 * p.start].group) && db.matches[k / 2].group.None?
  {
    var s := p.entries[k - 2 * p.start];
    assert PlaceInGroup(p.specs, s);
    EntryRow(p, k);
    KnockoutLeaf(p, db, k);
    GroupTable(p, db, s.group);
    RankedLength(RowsOf(db, s.group));
  }

  /** The first knockout match waits for the first two groups. */
  lemma FirstKnockoutMatch(p: Plan, db: DB)
    requires StateOf(p, db) && |p.entries| >= 2 && p.start < |p.ms|
    ensures db.matches[p.start].group.None?
    ensures Takes(db, 2 * p.start, p.entries[0].group) && Takes(db, 2 * p.start + 1, p.entries[1].group)
  {
    NotFedByGroup(p, db, 2 * p.start);
    NotFedByGroup(p, db, 2 * p.start + 1);
    EntryTakes(p, db, 2 * p.start);
    EntryTakes(p, db, 2 * p.start + 1);
  }

  lemma NotFedByGroup(p: Plan, db: DB, k: nat)
    requires StateOf(p, db) && k < |db.slots| && k / 2 == p.start
    ensures !db.slots[k].source.MatchWinner?
  {
    if db.slots[k].source.MatchWinner? {
      FeederIsKnockout(p, db, k, db.slots[k].source.feeder);
    }
  }

  lemma FeederIsKnockout(p: Plan, db: DB, k: nat, f: nat)
    requires StateOf(p, db) && k < |db.slots| && db.slots[k].source == MatchWinner(f)
    ensures p.start <= f < k / 2
  {
    StageHasGroup(p);
    assert RowShape(db, db.slots[k]);
  }

  lemma StageHasGroup(p: Plan)
    requires Drawn(p)
    ensures forall m :: 0 <= m < p.start ==> Stored(p).matches[m].group.Some?
  {
    forall m: nat | m < p.start
      ensures Stored(p).matches[m].group.Some?
    {
      assert StageMatchIn(p.specs, p.ms[..p.start][m]);
    }
  }

  /** In every reached state a knockout match can still be won exactly when it is won, or a
      player stands in it or can still come to it, through matches without a score and groups
      whose places no scored match takes, and the winner's next match has no score. */
  lemma KnockoutWonIff(specs: seq<GroupSpec>, names: map<Team, int>, played: seq<Request>, m: nat)
    requires Settable(specs, names) && m < |GroupDraw(specs)| && GroupDraw(specs)[m].group < 0
    ensures EdgesInside(GroupDraw(specs)) && Laid(Persisted(GroupDraw(specs), names))
    ensures var db := Run(Persisted(GroupDraw(specs), names), played);
            && m < |db.matches|
            && ((exists qs :: Wins(db, qs, m, None)) <==>
                  WonBy(db.matches[m], None) || (Playable(db, m, None) && ConsumersFree(db, m)))
  {
    GroupKnockoutRunsTrue(specs, names, played);
    WonIff(Run(Persisted(GroupDraw(specs), names), played), m, None);
  }

  /** Every event of two groups or more can get stuck: once the first group is complete, the
      first knockout match can be scored, and from then on no request completes the second
      group, which at the start could be completed. */
  lemma GroupCanBeLost(specs: seq<GroupSpec>, names: map<Team, int>) returns (qs: seq<Request>)
    requires Settable(specs, names) && |specs| >= 2
    ensures EdgesInside(GroupDraw(specs)) && Laid(Persisted(GroupDraw(specs), names))
    ensures exists first :: Completes(Persisted(GroupDraw(specs), names), first, 1)
    ensures !exists later :: Completes(Run(Persisted(GroupDraw(specs), names), qs), later, 1)
  {
    var p := PlanOf(specs, names);
    GroupDrawOk(specs, names);
    FirstEntries(specs);
    KnockoutFollows(specs);
    OpenAtFirst(p, 1);
    qs := LoseSecondGroup(p);
  }

  lemma OpenAtFirst(p: Plan, g: nat)
    requires Drawn(p)
    ensures Laid(Stored(p)) && exists first :: Completes(Stored(p), first, g)
  {
    StoredAllOpen(p);
    CompletedIff(Stored(p), g);
  }

  lemma KnockoutFollows(specs: seq<GroupSpec>)
    requires |Advancers(specs)| >= 2
    ensures |GroupStage(specs, |specs|)| < |GroupDraw(specs)|
  {
    PaddedSize(Advancers(specs));
  }

  lemma LoseSecondGroup(p: Plan) returns (qs: seq<Request>)
    requires Drawn(p) && FirstTwoGroups(p)
    ensures Laid(Stored(p)) && !exists later :: Completes(Run(Stored(p), qs), later, 1)
  {
    var before := PlayFirstGroup(p);
    qs := LoseGroup(Stored(p), before, p.start, 1, 2 * p.start + 1, 1);
  }

  lemma PlayFirstGroup(p: Plan) returns (qs: seq<Request>)
    requires Drawn(p) && FirstTwoGroups(p)
    ensures Laid(Stored(p)) && Coherent(Run(Stored(p), qs))
    ensures WaitsForGroup(Run(Stored(p), qs), p.start, 1, 2 * p.start + 1, 1)
  {
    StoredAllOpen(p);
    qs := CompleteGroup(Stored(p), 0);
    RunState(p, qs);
    FirstGroupPlayed(p, Run(Stored(p), qs));
  }

  lemma LoseGroup(db: DB, before: seq<Request>, m: nat, s: int, k: nat, g: nat) returns (qs: seq<Request>)
    requires Laid(db) && Coherent(Run(db, before)) && WaitsForGroup(Run(db, before), m, s, k, g)
    ensures !exists later :: Completes(Run(db, qs), later, g)
  {
    GroupIsLost(Run(db, before), m, s, k, g);
    RunAppend(db, before, [WalkoverFor(m, s)]);
    qs := before + [WalkoverFor(m, s)];
  }

  ghost predicate FirstTwoGroups(p: Plan) {
    && p.start < |p.ms| && |p.entries| >= 2
    && p.entries[0].Placement? && p.entries[0].group == 0 && p.entries[1].Placement? && p.entries[1].group == 1
  }

  lemma FirstGroupPlayed(p: Plan, mid: DB)
    requires StateOf(p, mid) && FirstTwoGroups(p) && AllOpen(Stored(p))
    requires GroupPlayed(Stored(p), mid, 0, |p.ms|) && GroupComplete(mid, 0)
    ensures WaitsForGroup(mid, p.start, 1, 2 * p.start + 1, 1)
  {
    FirstKnockoutMatch(p, mid);
    TwoGroups(p);
    SecondGroupOpen(p, mid);
    FirstMatchWaits(Stored(p), mid, p.start);
  }

  lemma TwoGroups(p: Plan)
    requires Drawn(p) && FirstTwoGroups(p)
    ensures |p.specs| >= 2
  {
    assert PlaceInGroup(p.specs, p.entries[1]);
  }

  lemma RunState(p: Plan, qs: seq<Request>)
    requires Drawn(p)
    ensures Laid(Stored(p)) && StateOf(p, Run(Stored(p), qs))
  {
    PlanRunsTrue(p, qs);
  }

  /** Completing the first group leaves the second open. */
  lemma SecondGroupOpen(p: Plan, mid: DB)
    requires Drawn(p) && |p.specs| >= 2 && Laid(Stored(p)) && AllOpen(Stored(p))
    requires GroupPlayed(Stored(p), mid, 0, |p.ms|)
    ensures !GroupComplete(mid, 1)
  {
    var m, side := FixtureFor(p, 1, p.specs[1].teams[0]);
    StageRow(p, 2 * m);
    assert InGroup(Stored(p), m, 1) && !InGroup(Stored(p), m, 0);
    assert InGroup(mid, m, 1);
  }

  lemma FirstMatchWaits(db: DB, mid: DB, m: nat)
    requires AllOpen(db) && GroupPlayed(db, mid, 0, |db.matches|) && GroupComplete(mid, 0) && !GroupComplete(mid, 1)
    requires m < |mid.matches| && mid.matches[m].group.None?
    requires Takes(mid, 2 * m, 0) && Takes(mid, 2 * m + 1, 1)
    ensures WaitsForGroup(mid, m, 1, 2 * m + 1, 1)
  {
    TakenPlace(mid, 2 * m, 0);
    forall k: nat | k < |mid.slots| && mid.slots[k].source == MatchWinner(m)
      ensures !Entered(mid, k / 2)
    {
      assert RowShape(mid, mid.slots[k]) && OpenMatch(db, k / 2);
    }
  }
}
