/**
 * `summarize_parsed_game` (src/utils/summarize_parsed_data.py): one pass over the parsed
 * plays keeps a counter record per team; the first two teams (padded with "UNK") are then
 * compared in a summary record with "made/attempted" strings and a short narrative.
 */
module Aggregator {
  import opened Wrappers
  import opened Text
  import opened Classifier

  /** One play as read back from the parsed JSON: each key may be missing. */
  datatype Play = Play(team: Option<string>, eventType: Option<string>, points: Option<int>)

  /** `play.get("team", "UNK")`. */
  function TeamOf(p: Play): string {
    p.team.GetOr("UNK")
  }

  /** `play.get("event_type", "")`. */
  function EventTypeOf(p: Play): string {
    p.eventType.GetOr("")
  }

  // ---------------------------------------------------------------------------
  // Per-team counters
  // ---------------------------------------------------------------------------

  /** The counter record `team_stats` holds for each team. */
  datatype Stats = Stats(
    points: nat,
    fgMade: nat,
    fgAttempts: nat,
    threeAttempts: nat,
    threeMade: nat,
    ftMade: nat,
    ftAttempts: nat,
    turnovers: nat,
    rebounds: nat,
    fouls: nat,
    steals: nat)

  /** The record the `defaultdict` creates for a team it has not seen. */
  const Zero := Stats(0, 0, 0, 0, 0, 0, 0, 0, 0, 0, 0)

  /**
   * The counter invariants: nothing is made more often than attempted, three-point attempts
   * are field-goal attempts, and the points are two per field goal, one more per three and
   * one per free throw.
   */
  predicate WellFormed(s: Stats) {
    && s.fgMade <= s.fgAttempts
    && s.threeMade <= s.threeAttempts
    && s.ftMade <= s.ftAttempts
    && s.threeAttempts <= s.fgAttempts
    && s.threeMade <= s.fgMade
    && s.points == 2 * s.fgMade + s.threeMade + s.ftMade
  }

  /** Which arm of the elif chain a play takes. */
  datatype Branch =
    | ThreePoint(made: bool)
    | FreeThrow(made: bool)
    | TwoMade
    | TwoMissed
    | TurnoverBranch
    | ReboundBranch
    | FoulBranch
    | StealBranch
    | NoStat

  /** The elif chain over the event-type string, by substring tests. */
  function BranchOf(evt: string): Branch {
    if Contains(evt, "3PT") then ThreePoint(Contains(evt, "MADE"))
    else if Contains(evt, "FT") then FreeThrow(Contains(evt, "MADE"))
    else if Contains(evt, "MADE") && !Contains(evt, "3PT") && !Contains(evt, "FT") then TwoMade
    else if Contains(evt, "MISS") && !Contains(evt, "3PT") && !Contains(evt, "FT") then TwoMissed
    else if Contains(evt, "TURNOVER") then TurnoverBranch
    else if Contains(evt, "REBOUND") then ReboundBranch
    else if Contains(evt, "FOUL") then FoulBranch
    else if Contains(evt, "STEAL") then StealBranch
    else NoStat
  }

  /** The points a branch scores. */
  function Scored(b: Branch): nat {
    match b
    case ThreePoint(made) => if made then 3 else 0
    case FreeThrow(made) => if made then 1 else 0
    case TwoMade => 2
    case _ => 0
  }

  /**
   * The increments of one arm. A play outside the chain changes nothing, no counter ever goes
   * down, and the points grow by what the arm scores.
   */
  function Apply(s: Stats, b: Branch): (s': Stats)
    ensures b.NoStat? ==> s' == s
    ensures s'.points == s.points + Scored(b)
    ensures s.fgMade <= s'.fgMade && s.fgAttempts <= s'.fgAttempts
    ensures s.threeMade <= s'.threeMade && s.threeAttempts <= s'.threeAttempts
    ensures s.ftMade <= s'.ftMade && s.ftAttempts <= s'.ftAttempts
    ensures s.turnovers <= s'.turnovers && s.rebounds <= s'.rebounds
    ensures s.fouls <= s'.fouls && s.steals <= s'.steals
  {
    match b
    case ThreePoint(made) =>
      var s1 := s.(threeAttempts := s.threeAttempts + 1, fgAttempts := s.fgAttempts + 1);
      if made then s1.(points := s1.points + 3, threeMade := s1.threeMade + 1, fgMade := s1.fgMade + 1)
      else s1
    case FreeThrow(made) =>
      var s1 := s.(ftAttempts := s.ftAttempts + 1);
      if made then s1.(points := s1.points + 1, ftMade := s1.ftMade + 1) else s1
    case TwoMade => s.(points := s.points + 2, fgMade := s.fgMade + 1, fgAttempts := s.fgAttempts + 1)
    case TwoMissed => s.(fgAttempts := s.fgAttempts + 1)
    case TurnoverBranch => s.(turnovers := s.turnovers + 1)
    case ReboundBranch => s.(rebounds := s.rebounds + 1)
    case FoulBranch => s.(fouls := s.fouls + 1)
    case StealBranch => s.(steals := s.steals + 1)
    case NoStat => s
  }

  /** The counter invariants survive every arm. */
  lemma ApplyWellFormed(s: Stats, b: Branch)
    requires WellFormed(s)
    ensures WellFormed(Apply(s, b))
  {
  }

  /** The play takes an arm that touches its team's counters. */
  predicate Touches(p: Play) {
    !BranchOf(EventTypeOf(p)).NoStat?
  }

  // ---------------------------------------------------------------------------
  // The dictionary of counters
  // ---------------------------------------------------------------------------

  /** `team_stats` with its key order (a dict iterates in insertion order). */
  datatype Table = Table(stats: map<string, Stats>, order: seq<string>)

  /** `team_stats[team]` on the `defaultdict`: the zero record for a team not yet present. */
  function Lookup(t: Table, team: string): Stats {
    if team in t.stats then t.stats[team] else Zero
  }

  /** One iteration of the loop: a play outside the chain leaves the table, key order included, as it is. */
  function Step(t: Table, p: Play): Table {
    var b := BranchOf(EventTypeOf(p));
    if b.NoStat? then t
    else
      var team := TeamOf(p);
      Table(t.stats[team := Apply(Lookup(t, team), b)], if team in t.stats then t.order else t.order + [team])
  }

  /** The table after the loop has seen `plays`. */
  function Accumulate(plays: seq<Play>): Table {
    if plays == [] then Table(map[], [])
    else Step(Accumulate(plays[..|plays| - 1]), plays[|plays| - 1])
  }

  lemma AccumulateStep(plays: seq<Play>, i: nat)
    requires i < |plays|
    ensures Accumulate(plays[..i + 1]) == Step(Accumulate(plays[..i]), plays[i])
  {
    assert plays[..i + 1][..i] == plays[..i];
  }

  /** The keys are exactly the teams of the key order. */
  ghost predicate KeysInOrder(t: Table) {
    forall team :: team in t.stats <==> team in t.order
  }

  /** No team appears twice in the key order. */
  predicate Distinct(order: seq<string>) {
    forall i, j :: 0 <= i < j < |order| ==> order[i] != order[j]
  }

  /** Every record keeps the counter invariants. */
  ghost predicate AllWellFormed(t: Table) {
    forall team :: team in t.stats ==> WellFormed(t.stats[team])
  }

  /** The keys are exactly the teams of the key order, each once, and every record keeps the counter invariants. */
  ghost predicate TableValid(t: Table) {
    KeysInOrder(t) && Distinct(t.order) && AllWellFormed(t)
  }

  lemma StepKeys(t: Table, p: Play)
    requires KeysInOrder(t)
    ensures KeysInOrder(Step(t, p))
  {
    var t' := Step(t, p);
    forall team ensures team in t'.stats <==> team in t'.order {
      if t' != t {
        assert team in t'.order <==> team in t.order || team == TeamOf(p);
      }
    }
  }

  lemma StepDistinct(t: Table, p: Play)
    requires KeysInOrder(t) && Distinct(t.order)
    ensures Distinct(Step(t, p).order)
  {
    var team := TeamOf(p);
    if !BranchOf(EventTypeOf(p)).NoStat? && team !in t.stats {
      assert team !in t.order;
    }
  }

  lemma UpdateWellFormed(t: Table, team: string, s': Stats, order: seq<string>)
    requires AllWellFormed(t) && WellFormed(s')
    ensures AllWellFormed(Table(t.stats[team := s'], order))
  {
  }

  lemma StepWellFormed(t: Table, p: Play)
    requires AllWellFormed(t)
    ensures AllWellFormed(Step(t, p))
  {
    var b := BranchOf(EventTypeOf(p));
    if !b.NoStat? {
      var team := TeamOf(p);
      var s := Lookup(t, team);
      assert WellFormed(s) by {
        if team !in t.stats {
          assert s == Zero;
        }
      }
      ApplyWellFormed(s, b);
      UpdateWellFormed(t, team, Apply(s, b), Step(t, p).order);
    }
  }

  /** The table stays valid through the whole loop. */
  lemma {:induction false} AccumulateValid(plays: seq<Play>)
    ensures TableValid(Accumulate(plays))
    decreases |plays|
  {
    if plays != [] {
      var t := Accumulate(plays[..|plays| - 1]);
      var p := plays[|plays| - 1];
      AccumulateValid(plays[..|plays| - 1]);
      StepKeys(t, p);
      StepDistinct(t, p);
      StepWellFormed(t, p);
    }
  }

  /** The counters of `team` after `plays`, counting only that team's plays: an independent reference. */
  function TeamStats(plays: seq<Play>, team: string): Stats {
    if plays == [] then Zero
    else
      var s := TeamStats(plays[..|plays| - 1], team);
      var p := plays[|plays| - 1];
      if TeamOf(p) == team then Apply(s, BranchOf(EventTypeOf(p))) else s
  }

  /** The counter invariants hold of every team's counters after any plays. */
  lemma {:induction false} TeamStatsWellFormed(plays: seq<Play>, team: string)
    ensures WellFormed(TeamStats(plays, team))
    decreases |plays|
  {
    if plays == [] {
      assert WellFormed(Zero);
    } else {
      var init := plays[..|plays| - 1];
      var p := plays[|plays| - 1];
      TeamStatsWellFormed(init, team);
      if TeamOf(p) == team {
        ApplyWellFormed(TeamStats(init, team), BranchOf(EventTypeOf(p)));
      }
    }
  }

  /**
   * Each play counts only for its own team: the record the dictionary gives a team (the zero
   * record if it has no key) is its own plays' counters; and a team has a key exactly when
   * one of its plays took an arm of the chain.
   */
  lemma {:induction false} AccumulateLookup(plays: seq<Play>, team: string)
    ensures Lookup(Accumulate(plays), team) == TeamStats(plays, team)
    ensures team in Accumulate(plays).stats <==> exists i :: 0 <= i < |plays| && Touches(plays[i]) && TeamOf(plays[i]) == team
    decreases |plays|
  {
    if plays != [] {
      var init := plays[..|plays| - 1];
      AccumulateLookup(init, team);
      var p := plays[|plays| - 1];
      if team in Accumulate(plays).stats && team !in Accumulate(init).stats {
        assert Touches(p) && TeamOf(p) == team;
      }
      if team in Accumulate(init).stats {
        var i :| 0 <= i < |init| && Touches(init[i]) && TeamOf(init[i]) == team;
        assert plays[i] == init[i];
      }
      if exists i :: 0 <= i < |plays| && Touches(plays[i]) && TeamOf(plays[i]) == team {
        var i :| 0 <= i < |plays| && Touches(plays[i]) && TeamOf(plays[i]) == team;
        if i < |init| {
          assert init[i] == plays[i];
        }
      }
    }
  }

  /** Keys are only ever added at the end: the key order after a prefix of the plays is a prefix of the final one. */
  lemma {:induction false} OrderGrows(plays: seq<Play>, i: nat)
    requires i <= |plays|
    ensures Accumulate(plays[..i]).order <= Accumulate(plays).order
    decreases |plays| - i
  {
    if i < |plays| {
      AccumulateStep(plays, i);
      OrderGrows(plays, i + 1);
    } else {
      assert plays[..i] == plays;
    }
  }

  /**
   * A team enters the key order at its first play that touches a counter, right after the
   * teams already there: with the order only growing, `keys()` lists teams by their first
   * counter-touching play.
   */
  lemma FirstTouchPlaced(plays: seq<Play>, i: nat)
    requires i < |plays| && Touches(plays[i])
    requires forall j :: 0 <= j < i && Touches(plays[j]) ==> TeamOf(plays[j]) != TeamOf(plays[i])
    ensures var k := |Accumulate(plays[..i]).order|;
      k < |Accumulate(plays).order| && Accumulate(plays).order[k] == TeamOf(plays[i])
  {
    var team := TeamOf(plays[i]);
    var before := Accumulate(plays[..i]);
    AccumulateLookup(plays[..i], team);
    assert team !in before.stats;
    AccumulateStep(plays, i);
    assert Accumulate(plays[..i + 1]).order == before.order + [team];
    OrderGrows(plays, i + 1);
  }

  /** The play's own "points" value is read but never counted: plays that differ only there give the same table. */
  lemma {:induction false} PointsIgnored(plays: seq<Play>, plays': seq<Play>)
    requires |plays| == |plays'|
    requires forall i :: 0 <= i < |plays| ==> plays[i].team == plays'[i].team && plays[i].eventType == plays'[i].eventType
    ensures Accumulate(plays) == Accumulate(plays')
    decreases |plays|
  {
    if plays != [] {
      var n := |plays| - 1;
      PointsIgnored(plays[..n], plays'[..n]);
    }
  }

  // ---------------------------------------------------------------------------
  // How the chain treats the tags the parser writes
  // ---------------------------------------------------------------------------

  /** The arm each tag of `parse_event_type` lands in. */
  function TagBranch(t: Tag): Branch {
    match t
    case ThreeMade => ThreePoint(true)
    case ThreeMissed => ThreePoint(false)
    case FtMade => FreeThrow(true)
    case FtMissed => FreeThrow(false)
    case ShotMade => TwoMade
    case LayupMade => TwoMade
    case DunkMade => TwoMade
    case ShotMissed => TwoMissed
    case LayupMissed => TwoMissed
    case DunkMissed => TwoMissed
    case FoulTurnover => TurnoverBranch
    case Turnover => TurnoverBranch
    case Rebound => ReboundBranch
    case Foul => FoulBranch
    case Steal => StealBranch
    case Block => NoStat
    case Substitution => NoStat
    case Timeout => NoStat
    case Other => NoStat
  }

  // Each tag string, one at a time: which of the chain's substring tests it passes.

  lemma ThreeMadeArm(s: string)
    requires s == "3PT_MADE"
    ensures BranchOf(s) == ThreePoint(true)
  {
    ContainsAt(s, "3PT", 0);
    ContainsAt(s, "MADE", 4);
  }

  lemma ThreeMissedArm(s: string)
    requires s == "3PT_MISSED"
    ensures BranchOf(s) == ThreePoint(false)
  {
    ContainsAt(s, "3PT", 0);
    NotContainsChar(s, "MADE", 1);
  }

  lemma FtMadeArm(s: string)
    requires s == "FT_MADE"
    ensures BranchOf(s) == FreeThrow(true)
  {
    NotContainsChar(s, "3PT", 0);
    ContainsAt(s, "FT", 0);
    ContainsAt(s, "MADE", 3);
  }

  lemma FtMissedArm(s: string)
    requires s == "FT_MISSED"
    ensures BranchOf(s) == FreeThrow(false)
  {
    NotContainsChar(s, "3PT", 0);
    ContainsAt(s, "FT", 0);
    NotContainsChar(s, "MADE", 1);
  }

  /** Both tags spell MADE at the same place. */
  lemma ShotMadeArm(s: string)
    requires s == "SHOT_MADE" || s == "DUNK_MADE"
    ensures BranchOf(s) == TwoMade
  {
    NotContainsChar(s, "3PT", 0);
    NotContainsChar(s, "FT", 0);
    ContainsAt(s, "MADE", 5);
  }

  lemma LayupMadeArm(s: string)
    requires s == "LAYUP_MADE"
    ensures BranchOf(s) == TwoMade
  {
    NotContainsChar(s, "3PT", 0);
    NotContainsChar(s, "FT", 0);
    ContainsAt(s, "MADE", 6);
  }

  lemma ShotMissedArm(s: string)
    requires s == "SHOT_MISSED"
    ensures BranchOf(s) == TwoMissed
  {
    NotContainsChar(s, "3PT", 0);
    NotContainsChar(s, "FT", 0);
    NotContainsChar(s, "MADE", 1);
    ContainsAt(s, "MISS", 5);
  }

  lemma LayupMissedNoMade(s: string)
    requires s == "LAYUP_MISSED"
    ensures !Contains(s, "3PT") && !Contains(s, "FT") && !Contains(s, "MADE")
  {
    NotContainsChar(s, "3PT", 0);
    NotContainsChar(s, "FT", 0);
    NotContainsPair(s, "MADE", 0);
  }

  lemma LayupMissedArm(s: string)
    requires s == "LAYUP_MISSED"
    ensures BranchOf(s) == TwoMissed
  {
    LayupMissedNoMade(s);
    ContainsAt(s, "MISS", 6);
  }

  lemma DunkMissedArm(s: string)
    requires s == "DUNK_MISSED"
    ensures BranchOf(s) == TwoMissed
  {
    NotContainsChar(s, "3PT", 0);
    NotContainsChar(s, "FT", 0);
    NotContainsChar(s, "MADE", 1);
    ContainsAt(s, "MISS", 5);
  }

  /** The combined foul-and-turnover tag counts as a turnover: TURNOVER is tested before FOUL. */
  lemma FoulTurnoverNoShot(s: string)
    requires s == "FOUL+TURNOVER"
    ensures !Contains(s, "3PT") && !Contains(s, "FT") && !Contains(s, "MADE") && !Contains(s, "MISS")
  {
    NotContainsChar(s, "3PT", 0);
    NotContainsPair(s, "FT", 0);
    NotContainsChar(s, "MADE", 0);
    NotContainsChar(s, "MISS", 0);
  }

  lemma FoulTurnoverArm(s: string)
    requires s == "FOUL+TURNOVER"
    ensures BranchOf(s) == TurnoverBranch
  {
    FoulTurnoverNoShot(s);
    ContainsAt(s, "TURNOVER", 5);
  }

  lemma TurnoverNoShot(s: string)
    requires s == "TURNOVER"
    ensures !Contains(s, "3PT") && !Contains(s, "FT") && !Contains(s, "MADE") && !Contains(s, "MISS")
  {
    NotContainsChar(s, "3PT", 0);
    NotContainsChar(s, "FT", 0);
    NotContainsChar(s, "MADE", 0);
    NotContainsChar(s, "MISS", 0);
  }

  lemma TurnoverArm(s: string)
    requires s == "TURNOVER"
    ensures BranchOf(s) == TurnoverBranch
  {
    TurnoverNoShot(s);
    ContainsAt(s, "TURNOVER", 0);
  }

  lemma ReboundNoShot(s: string)
    requires s == "REBOUND"
    ensures !Contains(s, "3PT") && !Contains(s, "FT") && !Contains(s, "MADE") && !Contains(s, "MISS")
  {
    NotContainsChar(s, "3PT", 0);
    NotContainsChar(s, "FT", 0);
    NotContainsChar(s, "MADE", 0);
    NotContainsChar(s, "MISS", 0);
  }

  lemma ReboundArm(s: string)
    requires s == "REBOUND"
    ensures BranchOf(s) == ReboundBranch
  {
    ReboundNoShot(s);
    NotContainsChar(s, "TURNOVER", 0);
    ContainsAt(s, "REBOUND", 0);
  }

  lemma FoulNoShot(s: string)
    requires s == "FOUL"
    ensures !Contains(s, "3PT") && !Contains(s, "FT") && !Contains(s, "MADE") && !Contains(s, "MISS")
  {
    NotContainsChar(s, "3PT", 0);
    NotContainsChar(s, "FT", 1);
    NotContainsChar(s, "MADE", 0);
    NotContainsChar(s, "MISS", 0);
  }

  lemma FoulArm(s: string)
    requires s == "FOUL"
    ensures BranchOf(s) == FoulBranch
  {
    FoulNoShot(s);
    NotContainsChar(s, "TURNOVER", 0);
    NotContainsChar(s, "REBOUND", 0);
    ContainsAt(s, "FOUL", 0);
  }

  lemma StealNoShot(s: string)
    requires s == "STEAL"
    ensures !Contains(s, "3PT") && !Contains(s, "FT") && !Contains(s, "MADE") && !Contains(s, "MISS")
  {
    NotContainsChar(s, "3PT", 0);
    NotContainsChar(s, "FT", 0);
    NotContainsChar(s, "MADE", 0);
    NotContainsChar(s, "MISS", 0);
  }

  lemma StealNoCounterWord(s: string)
    requires s == "STEAL"
    ensures !Contains(s, "TURNOVER") && !Contains(s, "REBOUND") && !Contains(s, "FOUL")
  {
    NotContainsChar(s, "TURNOVER", 1);
    NotContainsChar(s, "REBOUND", 0);
    NotContainsChar(s, "FOUL", 0);
  }

  lemma StealArm(s: string)
    requires s == "STEAL"
    ensures BranchOf(s) == StealBranch
  {
    StealNoShot(s);
    StealNoCounterWord(s);
    ContainsAt(s, "STEAL", 0);
  }

  lemma BlockNoShot(s: string)
    requires s == "BLOCK"
    ensures !Contains(s, "3PT") && !Contains(s, "FT") && !Contains(s, "MADE") && !Contains(s, "MISS")
  {
    NotContainsChar(s, "3PT", 0);
    NotContainsChar(s, "FT", 0);
    NotContainsChar(s, "MADE", 0);
    NotContainsChar(s, "MISS", 0);
  }

  lemma BlockNoCounterWord(s: string)
    requires s == "BLOCK"
    ensures !Contains(s, "TURNOVER") && !Contains(s, "REBOUND") && !Contains(s, "FOUL") && !Contains(s, "STEAL")
  {
    NotContainsChar(s, "TURNOVER", 0);
    NotContainsChar(s, "REBOUND", 0);
    NotContainsChar(s, "FOUL", 0);
    NotContainsChar(s, "STEAL", 0);
  }

  lemma BlockArm(s: string)
    requires s == "BLOCK"
    ensures BranchOf(s) == NoStat
  {
    BlockNoShot(s);
    BlockNoCounterWord(s);
    NoKeywordNoStat(s);
  }

  /** A string with none of the chain's keywords takes no arm. */
  lemma NoKeywordNoStat(s: string)
    requires !Contains(s, "3PT") && !Contains(s, "FT") && !Contains(s, "MADE") && !Contains(s, "MISS")
    requires !Contains(s, "TURNOVER") && !Contains(s, "REBOUND") && !Contains(s, "FOUL") && !Contains(s, "STEAL")
    ensures BranchOf(s) == NoStat
  {
  }

  lemma SubstitutionNoShot(s: string)
    requires s == "SUBSTITUTION"
    ensures !Contains(s, "3PT") && !Contains(s, "FT") && !Contains(s, "MADE") && !Contains(s, "MISS")
  {
    NotContainsChar(s, "3PT", 0);
    NotContainsChar(s, "FT", 0);
    NotContainsChar(s, "MADE", 0);
    NotContainsChar(s, "MISS", 0);
  }

  lemma SubstitutionNoTurnover(s: string)
    requires s == "SUBSTITUTION"
    ensures !Contains(s, "TURNOVER") && !Contains(s, "REBOUND")
  {
    NotContainsChar(s, "TURNOVER", 2);
    NotContainsChar(s, "REBOUND", 0);
  }

  lemma SubstitutionNoFoul(s: string)
    requires s == "SUBSTITUTION"
    ensures !Contains(s, "FOUL") && !Contains(s, "STEAL")
  {
    NotContainsChar(s, "FOUL", 0);
    NotContainsChar(s, "STEAL", 2);
  }

  lemma SubstitutionArm(s: string)
    requires s == "SUBSTITUTION"
    ensures BranchOf(s) == NoStat
  {
    SubstitutionNoShot(s);
    SubstitutionNoTurnover(s);
    SubstitutionNoFoul(s);
    NoKeywordNoStat(s);
  }

  lemma TimeoutNoShot(s: string)
    requires s == "TIMEOUT"
    ensures !Contains(s, "3PT") && !Contains(s, "FT") && !Contains(s, "MADE") && !Contains(s, "MISS")
  {
    NotContainsChar(s, "3PT", 0);
    NotContainsChar(s, "FT", 0);
    NotContainsChar(s, "MADE", 1);
    NotContainsChar(s, "MISS", 2);
  }

  lemma TimeoutNoCounterWord(s: string)
    requires s == "TIMEOUT"
    ensures !Contains(s, "TURNOVER") && !Contains(s, "REBOUND") && !Contains(s, "FOUL") && !Contains(s, "STEAL")
  {
    NotContainsChar(s, "TURNOVER", 2);
    NotContainsChar(s, "REBOUND", 0);
    NotContainsChar(s, "FOUL", 0);
    NotContainsChar(s, "STEAL", 0);
  }

  lemma TimeoutArm(s: string)
    requires s == "TIMEOUT"
    ensures BranchOf(s) == NoStat
  {
    TimeoutNoShot(s);
    TimeoutNoCounterWord(s);
    NoKeywordNoStat(s);
  }

  lemma OtherNoShot(s: string)
    requires s == "OTHER"
    ensures !Contains(s, "3PT") && !Contains(s, "FT") && !Contains(s, "MADE") && !Contains(s, "MISS")
  {
    NotContainsChar(s, "3PT", 0);
    NotContainsChar(s, "FT", 0);
    NotContainsChar(s, "MADE", 0);
    NotContainsChar(s, "MISS", 0);
  }

  lemma OtherNoCounterWord(s: string)
    requires s == "OTHER"
    ensures !Contains(s, "TURNOVER") && !Contains(s, "REBOUND") && !Contains(s, "FOUL") && !Contains(s, "STEAL")
  {
    NotContainsChar(s, "TURNOVER", 1);
    NotContainsChar(s, "REBOUND", 2);
    NotContainsChar(s, "FOUL", 0);
    NotContainsChar(s, "STEAL", 0);
  }

  lemma OtherArm(s: string)
    requires s == "OTHER"
    ensures BranchOf(s) == NoStat
  {
    OtherNoShot(s);
    OtherNoCounterWord(s);
    NoKeywordNoStat(s);
  }

  /** Every tag the parser writes lands in the arm `TagBranch` names. */
  lemma TagBranches(t: Tag)
    ensures BranchOf(TagName(t)) == TagBranch(t)
  {
    var s := TagName(t);
    match t
    case ThreeMade => ThreeMadeArm(s);
    case ThreeMissed => ThreeMissedArm(s);
    case FtMade => FtMadeArm(s);
    case FtMissed => FtMissedArm(s);
    case ShotMade => ShotMadeArm(s);
    case LayupMade => LayupMadeArm(s);
    case DunkMade => ShotMadeArm(s);
    case ShotMissed => ShotMissedArm(s);
    case LayupMissed => LayupMissedArm(s);
    case DunkMissed => DunkMissedArm(s);
    case FoulTurnover => FoulTurnoverArm(s);
    case Turnover => TurnoverArm(s);
    case Rebound => ReboundArm(s);
    case Foul => FoulArm(s);
    case Steal => StealArm(s);
    case Block => BlockArm(s);
    case Substitution => SubstitutionArm(s);
    case Timeout => TimeoutArm(s);
    case Other => OtherArm(s);
  }
}
