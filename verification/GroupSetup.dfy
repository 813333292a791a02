/** The manual group-knockout draw (draw/manual_setup.go). */
module GroupSetup {
  import opened Seqs
  import opened Bracket
  import RoundRobin

  /** One organizer-defined group. */
  datatype GroupSpec = GroupSpec(advance: int, teams: seq<Team>)

  // SetGroups

  function AllTeams(specs: seq<GroupSpec>): seq<Team> {
    if specs == [] then [] else AllTeams(specs[..|specs| - 1]) + specs[|specs| - 1].teams
  }

  function TotalAdvance(specs: seq<GroupSpec>): int {
    if specs == [] then 0 else TotalAdvance(specs[..|specs| - 1]) + specs[|specs| - 1].advance
  }

  predicate LegalSize(g: GroupSpec) {
    |g.teams| >= 2 && 1 <= g.advance <= |g.teams|
  }

  /** Every group has two teams and advances between one and all of them; every team
      belongs to the event and is in one group only; at least two teams advance. */
  ghost predicate LegalGroups(specs: seq<GroupSpec>, valid: set<Team>) {
    && |specs| >= 1
    && (forall i :: 0 <= i < |specs| ==> LegalSize(specs[i]))
    && (forall i :: 0 <= i < |AllTeams(specs)| ==> AllTeams(specs)[i] in valid)
    && NoRepeats(AllTeams(specs))
    && TotalAdvance(specs) >= 2
  }

  /** Every team of the list so far is valid and new. */
  ghost predicate AllNew(ts: seq<Team>, valid: set<Team>) {
    NoRepeats(ts) && forall i :: 0 <= i < |ts| ==> ts[i] in valid
  }

  method CheckGroups(specs: seq<GroupSpec>, valid: set<Team>) returns (ok: bool)
    ensures ok <==> LegalGroups(specs, valid)
  {
    if |specs| < 1 {
      return false;
    }
    var seen: set<Team> := {};
    var totalAdvance := 0;
    for i := 0 to |specs|
      invariant forall j :: 0 <= j < i ==> LegalSize(specs[j])
      invariant AllNew(AllTeams(specs[..i]), valid)
      invariant forall t :: t in seen <==> t in AllTeams(specs[..i])
      invariant totalAdvance == TotalAdvance(specs[..i])
    {
      assert specs[..i + 1][..i] == specs[..i];
      if !LegalSize(specs[i]) {
        return false;
      }
      AllTeamsPrefix(specs, i + 1);
      var allNew;
      allNew, seen := CheckTeams(specs[i].teams, valid, seen, AllTeams(specs[..i]));
      if !allNew {
        NotNewPrefix(AllTeams(specs[..i + 1]), AllTeams(specs), valid);
        return false;
      }
      totalAdvance := totalAdvance + specs[i].advance;
    }
    assert specs[..|specs|] == specs;
    ok := totalAdvance >= 2;
  }

  /** The inner loop of the checks: one group's teams. */
  method CheckTeams(teams: seq<Team>, valid: set<Team>, seen: set<Team>, ghost before: seq<Team>)
    returns (ok: bool, all: set<Team>)
    requires AllNew(before, valid) && forall t :: t in seen <==> t in before
    ensures ok <==> AllNew(before + teams, valid)
    ensures ok ==> forall t :: t in all <==> t in before + teams
  {
    all := seen;
    for i := 0 to |teams|
      invariant AllNew(before + teams[..i], valid)
      invariant forall t :: t in all <==> t in before + teams[..i]
    {
      ghost var sofar := before + teams[..i];
      assert before + teams[..i + 1] == sofar + [teams[i]];
      if teams[i] !in valid || teams[i] in all {
        NotNew(sofar, teams[i], valid);
        assert before + teams == (sofar + [teams[i]]) + teams[i + 1..];
        NotNewPrefix(sofar + [teams[i]], before + teams, valid);
        return false, all;
      }
      all := all + {teams[i]};
    }
    assert teams[..|teams|] == teams;
    ok := true;
  }

  lemma NotNew(ts: seq<Team>, t: Team, valid: set<Team>)
    requires t !in valid || t in ts
    ensures !AllNew(ts + [t], valid)
  {
    assert (ts + [t])[|ts|] == t;
    if t in ts {
      var j :| 0 <= j < |ts| && ts[j] == t;
      assert (ts + [t])[j] == t;
    }
  }

  lemma NotNewPrefix(part: seq<Team>, all: seq<Team>, valid: set<Team>)
    requires part <= all && !AllNew(part, valid)
    ensures !AllNew(all, valid)
  {
  }

  lemma {:induction false} AllTeamsPrefix(specs: seq<GroupSpec>, n: nat)
    requires n <= |specs|
    ensures AllTeams(specs[..n]) <= AllTeams(specs)
  {
    if n < |specs| {
      assert specs[..|specs| - 1][..n] == specs[..n];
      AllTeamsPrefix(specs[..|specs| - 1], n);
    } else {
      assert specs[..n] == specs;
    }
  }

  // advancerSlots

  /** The knockout entries written for group g: its winner, the next group's
      runner-up, then its own lower ranks. */
  function GroupAdvancers(specs: seq<GroupSpec>, g: nat): seq<Slot>
    requires g < |specs|
  {
    [Placement(g, 1)]
      + (if specs[g].advance > 1 then [Placement((g + 1) % |specs|, 2)] else [])
      + LowerRanks(g, specs[g].advance)
  }

  function LowerRanks(g: nat, advance: int): seq<Slot> {
    if advance <= 2 then [] else LowerRanks(g, advance - 1) + [Placement(g, advance)]
  }

  function AdvancersOf(specs: seq<GroupSpec>, n: nat): seq<Slot>
    requires n <= |specs|
  {
    if n == 0 then [] else AdvancersOf(specs, n - 1) + GroupAdvancers(specs, n - 1)
  }

  function Advancers(specs: seq<GroupSpec>): seq<Slot> {
    AdvancersOf(specs, |specs|)
  }

  method AdvancerSlots(specs: seq<GroupSpec>) returns (slots: seq<Slot>)
    ensures slots == Advancers(specs)
  {
    slots := [];
    for g := 0 to |specs|
      invariant slots == AdvancersOf(specs, g)
    {
      ghost var before := slots;
      slots := slots + [Placement(g, 1)];
      if specs[g].advance > 1 {
        var other := (g + 1) % |specs|;
        slots := slots + [Placement(other, 2)];
      }
      ghost var top := slots;
      var p := 2;
      while p < specs[g].advance
        invariant 2 <= p && (p == 2 || p <= specs[g].advance)
        invariant slots == top + LowerRanks(g, p)
      {
        slots := slots + [Placement(g, p + 1)];
        p := p + 1;
      }
      assert LowerRanks(g, p) == LowerRanks(g, specs[g].advance);
      assert slots == before + GroupAdvancers(specs, g);
    }
  }

  lemma {:induction false} LowerRanksAre(g: nat, advance: int)
    ensures |LowerRanks(g, advance)| == if advance <= 2 then 0 else advance - 2
    ensures forall i :: 0 <= i < |LowerRanks(g, advance)| ==> LowerRanks(g, advance)[i] == Placement(g, i + 3)
  {
    if advance > 2 { LowerRanksAre(g, advance - 1); }
  }

  /** As many slots as teams advance. */
  lemma {:induction false} AdvancersCount(specs: seq<GroupSpec>, n: nat)
    requires n <= |specs| && forall i :: 0 <= i < |specs| ==> specs[i].advance >= 1
    ensures |AdvancersOf(specs, n)| == TotalAdvance(specs[..n])
  {
    if n > 0 {
      AdvancersCount(specs, n - 1);
      LowerRanksAre(n - 1, specs[n - 1].advance);
      assert specs[..n][..n - 1] == specs[..n - 1];
    }
  }

  function Previous(g: nat, n: nat): nat
    requires g < n
  {
    if g == 0 then n - 1 else g - 1
  }

  /** The entry is written while group h is handled. */
  predicate WrittenBy(specs: seq<GroupSpec>, h: int, s: Slot) {
    && 0 <= h < |specs| && s.Placement? && s.group < |specs|
    && if s.rank == 2 then h == Previous(s.group, |specs|) && specs[h].advance > 1
       else h == s.group && (s.rank == 1 || 3 <= s.rank <= specs[h].advance)
  }

  lemma GroupAdvancersAre(specs: seq<GroupSpec>, g: nat)
    requires g < |specs| && specs[g].advance >= 1
    ensures NoRepeats(GroupAdvancers(specs, g))
    ensures forall s :: s in GroupAdvancers(specs, g) <==> WrittenBy(specs, g, s)
  {
    LowerRanksAre(g, specs[g].advance);
    var low := LowerRanks(g, specs[g].advance);
    forall s | WrittenBy(specs, g, s)
      ensures s in GroupAdvancers(specs, g)
    {
      if s.rank == 1 {
        assert s == Placement(g, 1);
      } else if s.rank == 2 {
        assert s == Placement((g + 1) % |specs|, 2);
      } else {
        assert low[s.rank - 3] == s;
      }
    }
  }

  lemma {:induction false} AdvancersAre(specs: seq<GroupSpec>, n: nat)
    requires n <= |specs| && forall i :: 0 <= i < |specs| ==> specs[i].advance >= 1
    ensures NoRepeats(AdvancersOf(specs, n))
    ensures forall s :: s in AdvancersOf(specs, n) <==> exists h :: 0 <= h < n && WrittenBy(specs, h, s)
  {
    if n > 0 {
      AdvancersAre(specs, n - 1);
      GroupAdvancersAre(specs, n - 1);
      JoinedNoRepeats(AdvancersOf(specs, n - 1), GroupAdvancers(specs, n - 1));
    }
  }

  /** No (group, rank) is entered twice, every rank exists in its group, and there are
      exactly as many entries as advancing teams. */
  lemma AdvancersSound(specs: seq<GroupSpec>, valid: set<Team>)
    requires LegalGroups(specs, valid)
    ensures |Advancers(specs)| == TotalAdvance(specs)
    ensures NoRepeats(Advancers(specs))
    ensures forall i :: 0 <= i < |Advancers(specs)| ==>
              var s := Advancers(specs)[i];
              s.Placement? && s.group < |specs| && 1 <= s.rank <= |specs[s.group].teams|
  {
    AdvancersCount(specs, |specs|);
    assert specs[..|specs|] == specs;
    AdvancersAre(specs, |specs|);
    forall i | 0 <= i < |Advancers(specs)|
      ensures var s := Advancers(specs)[i]; s.Placement? && s.group < |specs| && 1 <= s.rank <= |specs[s.group].teams|
    {
      var s := Advancers(specs)[i];
      assert s in Advancers(specs);
      var h :| 0 <= h < |specs| && WrittenBy(specs, h, s);
      assert LegalSize(specs[s.group]) && LegalSize(specs[h]);
    }
  }

  lemma {:induction false} AdvancersPrefix(specs: seq<GroupSpec>, n: nat, m: nat)
    requires n <= m <= |specs|
    ensures AdvancersOf(specs, n) <= AdvancersOf(specs, m)
  {
    if n < m { AdvancersPrefix(specs, n, m - 1); }
  }

  /** The first match of the knockout waits for the first two groups. */
  lemma FirstEntries(specs: seq<GroupSpec>)
    requires |specs| >= 2
    ensures |Advancers(specs)| >= 2
    ensures Advancers(specs)[0] == Placement(0, 1)
    ensures Advancers(specs)[1] == Placement(1, if specs[0].advance > 1 then 2 else 1)
  {
    var two := AdvancersOf(specs, 2);
    AdvancersPrefix(specs, 2, |specs|);
    FirstTwo(specs);
    assert Advancers(specs)[0] == two[0] && Advancers(specs)[1] == two[1];
  }

  lemma FirstTwo(specs: seq<GroupSpec>)
    requires |specs| >= 2
    ensures |AdvancersOf(specs, 2)| >= 2
    ensures AdvancersOf(specs, 2)[0] == Placement(0, 1)
    ensures AdvancersOf(specs, 2)[1] == Placement(1, if specs[0].advance > 1 then 2 else 1)
  {
    assert AdvancersOf(specs, 1) == GroupAdvancers(specs, 0);
    var zero, one := GroupAdvancers(specs, 0), GroupAdvancers(specs, 1);
    assert AdvancersOf(specs, 2) == zero + one;
    assert zero[0] == Placement(0, 1) && one[0] == Placement(1, 1);
    if specs[0].advance > 1 { assert zero[1] == Placement(1, 2); }
    else { assert LowerRanks(0, specs[0].advance) == []; }
  }

  /** The entries are the teams the organizer asked for: the first advance places of
      every group, nothing else. */
  ghost predicate EntersTopPlaces(specs: seq<GroupSpec>) {
    forall g: nat, r: nat :: Placement(g, r) in Advancers(specs) <==> g < |specs| && 1 <= r <= specs[g].advance
  }

  predicate AllOrNoneRunnersUp(specs: seq<GroupSpec>) {
    || (forall g :: 0 <= g < |specs| ==> specs[g].advance > 1)
    || (forall g :: 0 <= g < |specs| ==> specs[g].advance <= 1)
  }

  function NextGroup(g: nat, n: nat): nat
    requires g < n
  {
    if g + 1 == n then 0 else g + 1
  }

  /** Wherever a group sends a runner-up, so does the next one. */
  ghost predicate RunnersUpChained(specs: seq<GroupSpec>) {
    forall h {:trigger NextGroup(h, |specs|)} :: 0 <= h < |specs| && specs[h].advance > 1 ==>
      specs[NextGroup(h, |specs|)].advance > 1
  }

  lemma {:induction false} RunnersUpSpread(specs: seq<GroupSpec>, g: nat, i: nat)
    requires g < |specs| && i < |specs| && specs[g].advance > 1 && RunnersUpChained(specs)
    ensures specs[i].advance > 1
    decreases if i >= g then i - g else i + |specs| - g
  {
    if g != i {
      RunnersUpSpread(specs, NextGroup(g, |specs|), i);
    }
  }

  lemma TopPlacesChained(specs: seq<GroupSpec>)
    requires |specs| >= 1 && forall i :: 0 <= i < |specs| ==> specs[i].advance >= 1
    requires EntersTopPlaces(specs)
    ensures RunnersUpChained(specs)
  {
    AdvancersAre(specs, |specs|);
    forall h: nat {:trigger NextGroup(h, |specs|)} | h < |specs| && specs[h].advance > 1
      ensures specs[NextGroup(h, |specs|)].advance > 1
    {
      var next := NextGroup(h, |specs|);
      assert WrittenBy(specs, h, Placement(next, 2));
      assert Placement(next, 2) in Advancers(specs);
    }
  }

  lemma UniformEntersTop(specs: seq<GroupSpec>)
    requires |specs| >= 1 && forall i :: 0 <= i < |specs| ==> specs[i].advance >= 1
    requires AllOrNoneRunnersUp(specs)
    ensures EntersTopPlaces(specs)
  {
    AdvancersAre(specs, |specs|);
    forall g: nat, r: nat
      ensures Placement(g, r) in Advancers(specs) <==> g < |specs| && 1 <= r <= specs[g].advance
    {
      if g < |specs| {
        var h := if r == 2 then Previous(g, |specs|) else g;
        assert WrittenBy(specs, h, Placement(g, r)) <==> 1 <= r <= specs[g].advance;
      }
    }
  }

  /** The runner-up entry tests one group's advance count but names the next group, so
      the draw enters the requested places exactly when all groups advance more than
      one team, or none does. */
  lemma TopPlacesIffUniform(specs: seq<GroupSpec>)
    requires |specs| >= 1 && forall i :: 0 <= i < |specs| ==> specs[i].advance >= 1
    ensures EntersTopPlaces(specs) <==> AllOrNoneRunnersUp(specs)
  {
    if AllOrNoneRunnersUp(specs) {
      UniformEntersTop(specs);
    }
    if EntersTopPlaces(specs) {
      TopPlacesChained(specs);
      if g :| 0 <= g < |specs| && specs[g].advance > 1 {
        forall i: nat | i < |specs|
          ensures specs[i].advance > 1
        {
          RunnersUpSpread(specs, g, i);
        }
      }
    }
  }

  /** Two legal groups advancing two and one: the second group's runner-up is entered in
      place of the first group's. */
  lemma UnevenAdvanceMisplaces(a: seq<Team>, b: seq<Team>, valid: set<Team>)
    requires |a| >= 2 && |b| >= 2 && AllNew(a + b, valid)
    ensures var specs := [GroupSpec(2, a), GroupSpec(1, b)];
            && LegalGroups(specs, valid) && !EntersTopPlaces(specs)
            && Advancers(specs) == [Placement(0, 1), Placement(1, 2), Placement(1, 1)]
  {
    var specs := [GroupSpec(2, a), GroupSpec(1, b)];
    UnevenLegal(a, b, valid);
    assert AdvancersOf(specs, 1) == GroupAdvancers(specs, 0) == [Placement(0, 1), Placement(1, 2)];
    assert Placement(1, 2) in Advancers(specs) by { assert Advancers(specs)[1] == Placement(1, 2); }
  }

  lemma UnevenLegal(a: seq<Team>, b: seq<Team>, valid: set<Team>)
    requires |a| >= 2 && |b| >= 2 && AllNew(a + b, valid)
    ensures LegalGroups([GroupSpec(2, a), GroupSpec(1, b)], valid)
  {
    var specs := [GroupSpec(2, a), GroupSpec(1, b)];
    assert specs[..1] == [GroupSpec(2, a)] && specs[..1][..0] == [];
    assert AllTeams(specs[..1]) == a;
    assert TotalAdvance(specs[..1]) == 2;
  }

  // groupKnockoutFromAssignment

  function GroupFixtures(specs: seq<GroupSpec>, g: nat): seq<Match>
    requires g < |specs|
  {
    Regrouped(RoundRobin.Draw(specs[g].teams), g)
  }

  function GroupStage(specs: seq<GroupSpec>, n: nat): seq<Match>
    requires n <= |specs|
  {
    if n == 0 then [] else GroupStage(specs, n - 1) + GroupFixtures(specs, n - 1)
  }

  function Shift(m: Match, start: int): Match {
    if m.next >= 0 then m.(next := m.next + start) else m
  }

  function Knockout(specs: seq<GroupSpec>): seq<Match> {
    Regrouped(Wired(SlotRound(Padded(Advancers(specs)))), -1)
  }

  /** The knockout's matches renumbered behind the group stage. */
  function Joined(stage: seq<Match>, ko: seq<Match>): seq<Match> {
    stage + seq(|ko|, i requires 0 <= i < |ko| => Shift(ko[i], |stage|))
  }

  function GroupDraw(specs: seq<GroupSpec>): seq<Match> {
    Joined(GroupStage(specs, |specs|), Knockout(specs))
  }

  method GroupKnockoutFromAssignment(specs: seq<GroupSpec>) returns (ms: seq<Match>)
    ensures ms == GroupDraw(specs)
  {
    ms := [];
    for gi := 0 to |specs|
      invariant ms == GroupStage(specs, gi)
    {
      var rr := RoundRobin.GenerateRoundRobin(specs[gi].teams);
      var stamped := RoundRobin.StampGroup(rr, gi);
      ms := ms + stamped;
    }
    var koStart := |ms|;
    var slots := AdvancerSlots(specs);
    var ko := BuildKnockoutFromSlots(slots);
    ghost var wired := Wired(SlotRound(Padded(slots)));
    for i := 0 to |ko|
      invariant |ko| == |wired|
      invariant forall j :: 0 <= j < |ko| ==>
                  ko[j] == if j < i then Shift(Knockout(specs)[j], koStart) else wired[j].(group := 0)
    {
      if ko[i].next >= 0 {
        ko := ko[i := ko[i].(next := ko[i].next + koStart)];
      }
      ko := ko[i := ko[i].(group := -1)];
    }
    ms := ms + ko;
  }

  // Legal groups by hand

  lemma {:induction false} AllTeamsAre(specs: seq<GroupSpec>, t: Team)
    ensures t in AllTeams(specs) <==> exists g :: 0 <= g < |specs| && t in specs[g].teams
  {
    if specs != [] {
      var front, n := specs[..|specs| - 1], |specs| - 1;
      AllTeamsAre(front, t);
      if g :| 0 <= g < |front| && t in front[g].teams { assert t in specs[g].teams; }
      if g :| 0 <= g < |specs| && t in specs[g].teams { assert g == n || t in front[g].teams; }
    }
  }

  /** No team twice in a group, and no team in two groups. */
  ghost predicate TeamsOnce(specs: seq<GroupSpec>) {
    && (forall g :: 0 <= g < |specs| ==> NoRepeats(specs[g].teams))
    && (forall g, h :: 0 <= g < h < |specs| ==> forall t :: t in specs[g].teams ==> t !in specs[h].teams)
  }

  lemma {:induction false} AllTeamsOnce(specs: seq<GroupSpec>)
    ensures NoRepeats(AllTeams(specs)) <==> TeamsOnce(specs)
  {
    if specs != [] {
      var front, last := specs[..|specs| - 1], specs[|specs| - 1];
      AllTeamsOnce(front);
      JoinedNoRepeats(AllTeams(front), last.teams);
      forall t
        ensures t in AllTeams(front) <==> exists g :: 0 <= g < |front| && t in front[g].teams
      {
        AllTeamsAre(front, t);
      }
      OnceMore(front, last);
      assert specs == front + [last];
    }
  }

  lemma OnceMore(front: seq<GroupSpec>, last: GroupSpec)
    ensures TeamsOnce(front + [last]) <==>
              TeamsOnce(front) && NoRepeats(last.teams) && forall g :: 0 <= g < |front| ==> forall t :: t in front[g].teams ==> t !in last.teams
  {
    var specs := front + [last];
    assert specs[|front|] == last;
    if TeamsOnce(specs) {
      forall g | 0 <= g < |front|
        ensures NoRepeats(front[g].teams) && forall t :: t in front[g].teams ==> t !in last.teams
      {
        assert specs[g] == front[g];
      }
      forall g, h | 0 <= g < h < |front|
        ensures forall t :: t in front[g].teams ==> t !in front[h].teams
      {
        assert specs[g] == front[g] && specs[h] == front[h];
      }
    }
  }

  /** The groups are accepted exactly when there is one at least, each has two teams or more and
      advances from one to all of them, every team is of the event and in one place only, and
      two teams or more advance in all. */
  lemma LegalGroupsIff(specs: seq<GroupSpec>, valid: set<Team>)
    ensures LegalGroups(specs, valid) <==>
              && |specs| >= 1 && TotalAdvance(specs) >= 2
              && (forall g :: 0 <= g < |specs| ==> |specs[g].teams| >= 2 && 1 <= specs[g].advance <= |specs[g].teams|)
              && (forall g, t :: 0 <= g < |specs| && t in specs[g].teams ==> t in valid)
              && TeamsOnce(specs)
  {
    AllTeamsOnce(specs);
    var all := AllTeams(specs);
    forall t
      ensures t in all <==> exists g :: 0 <= g < |specs| && t in specs[g].teams
    {
      AllTeamsAre(specs, t);
    }
    assert (forall i :: 0 <= i < |all| ==> all[i] in valid) <==> (forall t :: t in all ==> t in valid);
  }
}
