/**
 * The second half of `summarize_parsed_game` (src/utils/summarize_parsed_data.py): scoring-run
 * detection, the choice of the two reported teams, the summary record with its
 * "made/attempted" strings, and the narrative; and the whole function as one loop over the
 * plays.
 */
module Summarizer {
  import opened Wrappers
  import opened Text
  import opened Aggregator

  // ---------------------------------------------------------------------------
  // Scoring runs
  // ---------------------------------------------------------------------------

  /** One entry of the scoring timeline: the team that scored, how much, and when. */
  datatype Score = Score(team: string, points: int, time: string)

  /** A scoring run: the team and the points it scored without the other side scoring. */
  datatype ScoringRun = ScoringRun(team: string, points: int)

  /** The smallest total that counts as a run. */
  const RunThreshold := 8

  /** The points of a timeline. */
  function TimelinePoints(timeline: seq<Score>): int {
    if timeline == [] then 0 else TimelinePoints(timeline[..|timeline| - 1]) + timeline[|timeline| - 1].points
  }

  /** The points of a list of runs. */
  function RunPoints(runs: seq<ScoringRun>): int {
    if runs == [] then 0 else RunPoints(runs[..|runs| - 1]) + runs[|runs| - 1].points
  }

  /** One more entry: it joins the last block when that block is its team's, else opens a new one. */
  function AddEntry(blocks: seq<ScoringRun>, entry: Score): (r: seq<ScoringRun>)
    ensures |r| <= |blocks| + 1
    ensures r != [] && r[|r| - 1].team == entry.team
  {
    if blocks != [] && blocks[|blocks| - 1].team == entry.team then
      blocks[..|blocks| - 1] + [ScoringRun(entry.team, blocks[|blocks| - 1].points + entry.points)]
    else
      blocks + [ScoringRun(entry.team, entry.points)]
  }

  /**
   * The maximal blocks of consecutive entries by one team, each with its total. There are
   * blocks exactly when there are entries, never more blocks than entries, and the last block
   * belongs to the team of the last entry.
   */
  function Blocks(timeline: seq<Score>): (r: seq<ScoringRun>)
    ensures |r| <= |timeline|
    ensures r == [] <==> timeline == []
    ensures r != [] ==> r[|r| - 1].team == timeline[|timeline| - 1].team
  {
    if timeline == [] then []
    else AddEntry(Blocks(timeline[..|timeline| - 1]), timeline[|timeline| - 1])
  }

  /** Grouping one more entry of a timeline adds it to the blocks of the entries before it. */
  lemma BlocksSnoc(timeline: seq<Score>, i: nat)
    requires i < |timeline|
    ensures Blocks(timeline[..i + 1]) == AddEntry(Blocks(timeline[..i]), timeline[i])
  {
    var t := timeline[..i + 1];
    assert t[..|t| - 1] == timeline[..i];
    assert t[|t| - 1] == timeline[i];
  }

  /** Blocks are maximal: two neighbouring blocks belong to different teams. */
  lemma {:induction false} BlocksAlternate(timeline: seq<Score>)
    ensures forall i :: 0 <= i < |Blocks(timeline)| - 1 ==> Blocks(timeline)[i].team != Blocks(timeline)[i + 1].team
    decreases |timeline|
  {
    if timeline != [] {
      BlocksAlternate(timeline[..|timeline| - 1]);
    }
  }

  lemma RunPointsSnoc(runs: seq<ScoringRun>, run: ScoringRun)
    ensures RunPoints(runs + [run]) == RunPoints(runs) + run.points
  {
    assert (runs + [run])[..|runs|] == runs;
  }

  /** Adding an entry adds its points to the blocks' total. */
  lemma AddEntryPoints(blocks: seq<ScoringRun>, entry: Score)
    ensures RunPoints(AddEntry(blocks, entry)) == RunPoints(blocks) + entry.points
  {
    if blocks != [] && blocks[|blocks| - 1].team == entry.team {
      var front := blocks[..|blocks| - 1];
      var last := blocks[|blocks| - 1];
      assert blocks == front + [last];
      RunPointsSnoc(front, last);
      RunPointsSnoc(front, ScoringRun(entry.team, last.points + entry.points));
    } else {
      RunPointsSnoc(blocks, ScoringRun(entry.team, entry.points));
    }
  }

  /** Splitting the timeline into blocks neither loses nor invents points. */
  lemma {:induction false} BlocksKeepPoints(timeline: seq<Score>)
    ensures RunPoints(Blocks(timeline)) == TimelinePoints(timeline)
    decreases |timeline|
  {
    if timeline != [] {
      var n := |timeline| - 1;
      BlocksKeepPoints(timeline[..n]);
      AddEntryPoints(Blocks(timeline[..n]), timeline[n]);
    }
  }

  /** The blocks whose total reaches the threshold, in order. */
  function AtLeastThreshold(blocks: seq<ScoringRun>): (r: seq<ScoringRun>)
    ensures |r| <= |blocks|
  {
    if blocks == [] then []
    else
      var kept := AtLeastThreshold(blocks[..|blocks| - 1]);
      var last := blocks[|blocks| - 1];
      if last.points >= RunThreshold then kept + [last] else kept
  }

  /** Every kept block reaches the threshold and comes from the input, and every input block
   *  that reaches it is kept. */
  lemma {:induction false} AtLeastThresholdKeeps(blocks: seq<ScoringRun>)
    ensures var r := AtLeastThreshold(blocks);
      && (forall i :: 0 <= i < |r| ==> r[i].points >= RunThreshold && r[i] in blocks)
      && (forall b :: b in blocks && b.points >= RunThreshold ==> b in r)
    decreases |blocks|
  {
    if blocks != [] {
      var init := blocks[..|blocks| - 1];
      AtLeastThresholdKeeps(init);
      assert blocks == init + [blocks[|blocks| - 1]];
    }
  }

  lemma AtLeastThresholdSnoc(blocks: seq<ScoringRun>, run: ScoringRun)
    ensures AtLeastThreshold(blocks + [run]) == AtLeastThreshold(blocks) + if run.points >= RunThreshold then [run] else []
  {
    assert (blocks + [run])[..|blocks|] == blocks;
  }

  /** The runs of a timeline: its maximal one-team blocks worth at least the threshold. */
  function Runs(timeline: seq<Score>): seq<ScoringRun> {
    AtLeastThreshold(Blocks(timeline))
  }

  /** One more entry after blocks whose last one is `team` with `pts` points: it extends that
   *  block when it is the same team's, and otherwise closes it and opens its own. */
  lemma AddEntryStep(closed: seq<ScoringRun>, team: string, pts: int, entry: Score)
    ensures team == entry.team ==>
      AddEntry(closed + [ScoringRun(team, pts)], entry) == closed + [ScoringRun(team, pts + entry.points)]
    ensures team != entry.team ==>
      AddEntry(closed + [ScoringRun(team, pts)], entry) == (closed + [ScoringRun(team, pts)]) + [ScoringRun(entry.team, entry.points)]
  {
    assert (closed + [ScoringRun(team, pts)])[..|closed|] == closed;
  }

  /** One more entry after a timeline whose blocks end with `team` holding `pts` points. */
  lemma BlocksStep(timeline: seq<Score>, i: nat, closed: seq<ScoringRun>, team: string, pts: int)
    requires i < |timeline|
    requires Blocks(timeline[..i]) == closed + [ScoringRun(team, pts)]
    ensures team == timeline[i].team ==> Blocks(timeline[..i + 1]) == closed + [ScoringRun(team, pts + timeline[i].points)]
    ensures team != timeline[i].team ==>
      Blocks(timeline[..i + 1]) == (closed + [ScoringRun(team, pts)]) + [ScoringRun(timeline[i].team, timeline[i].points)]
  {
    var open := closed + [ScoringRun(team, pts)];
    BlocksSnoc(timeline, i);
    assert Blocks(timeline[..i + 1]) == AddEntry(open, timeline[i]);
    AddEntryStep(closed, team, pts, timeline[i]);
  }

  /** The first entry opens the first block. */
  lemma BlocksFirst(timeline: seq<Score>)
    requires timeline != []
    ensures Blocks(timeline[..1]) == [] + [ScoringRun(timeline[0].team, timeline[0].points)]
  {
    BlocksSnoc(timeline, 0);
  }

  /** The open block, reported when it reaches the threshold. */
  function Flush(current: Option<string>, pts: int): seq<ScoringRun> {
    if pts >= RunThreshold && current.Some? then [ScoringRun(current.value, pts)] else []
  }

  /**
   * The runs the loop still reports from entry `i` on, when the open block belongs to
   * `current` and holds `pts` points: an entry of that team extends the block, any other
   * reports it (if it reaches the threshold) and opens its own; the end reports the last one.
   */
  function RunsFrom(timeline: seq<Score>, i: nat, current: Option<string>, pts: int): seq<ScoringRun>
    requires i <= |timeline|
    decreases |timeline| - i
  {
    if i == |timeline| then Flush(current, pts)
    else if current == Some(timeline[i].team) then RunsFrom(timeline, i + 1, current, pts + timeline[i].points)
    else Flush(current, pts) + RunsFrom(timeline, i + 1, Some(timeline[i].team), timeline[i].points)
  }

  /** From an open block that closes the blocks of the entries before `i`, the loop reports the
   *  runs of the whole timeline that those blocks have not yet reported. */
  lemma {:induction false} RunsFromBlocks(timeline: seq<Score>, i: nat, closed: seq<ScoringRun>, team: string, pts: int)
    requires i <= |timeline|
    requires Blocks(timeline[..i]) == closed + [ScoringRun(team, pts)]
    ensures AtLeastThreshold(closed) + RunsFrom(timeline, i, Some(team), pts) == Runs(timeline)
    decreases |timeline| - i, 1
  {
    if i == |timeline| {
      assert timeline[..i] == timeline;
      RunsFromEnd(timeline, closed, ScoringRun(team, pts));
    } else if team == timeline[i].team {
      RunsFromBlocksExtend(timeline, i, closed, team, pts);
    } else {
      RunsFromBlocksSwitch(timeline, i, closed, team, pts);
    }
  }

  /** The induction step for an entry of the open block's team. */
  lemma {:induction false} RunsFromBlocksExtend(timeline: seq<Score>, i: nat, closed: seq<ScoringRun>, team: string, pts: int)
    requires i < |timeline| && team == timeline[i].team
    requires Blocks(timeline[..i]) == closed + [ScoringRun(team, pts)]
    ensures AtLeastThreshold(closed) + RunsFrom(timeline, i, Some(team), pts) == Runs(timeline)
    decreases |timeline| - i, 0
  {
    var grown := pts + timeline[i].points;
    BlocksStep(timeline, i, closed, team, pts);
    RunsFromBlocks(timeline, i + 1, closed, team, grown);
    RunsFromExtend(timeline, i, team, pts);
    var done := AtLeastThreshold(closed);
    var here := RunsFrom(timeline, i, Some(team), pts);
    var next := RunsFrom(timeline, i + 1, Some(team), grown);
    assert here == next;
    assert done + next == Runs(timeline);
  }

  /** The induction step for an entry of another team. */
  lemma {:induction false} RunsFromBlocksSwitch(timeline: seq<Score>, i: nat, closed: seq<ScoringRun>, team: string, pts: int)
    requires i < |timeline| && team != timeline[i].team
    requires Blocks(timeline[..i]) == closed + [ScoringRun(team, pts)]
    ensures AtLeastThreshold(closed) + RunsFrom(timeline, i, Some(team), pts) == Runs(timeline)
    decreases |timeline| - i, 0
  {
    var run := ScoringRun(team, pts);
    var entry := timeline[i];
    BlocksStep(timeline, i, closed, team, pts);
    RunsFromBlocks(timeline, i + 1, closed + [run], entry.team, entry.points);
    RunsFromSwitch(timeline, i, team, pts);
    var rest := RunsFrom(timeline, i + 1, Some(entry.team), entry.points);
    RunsFromClose(closed, run, rest);
    var done := AtLeastThreshold(closed);
    var here := RunsFrom(timeline, i, Some(team), pts);
    assert here == Flush(Some(team), pts) + rest;
    assert AtLeastThreshold(closed + [run]) + rest == Runs(timeline);
  }

  /** At the end of the timeline the loop reports the open block if it reaches the threshold. */
  lemma RunsFromEnd(timeline: seq<Score>, closed: seq<ScoringRun>, run: ScoringRun)
    ensures AtLeastThreshold(closed) + RunsFrom(timeline, |timeline|, Some(run.team), run.points)
         == AtLeastThreshold(closed + [run])
  {
    AtLeastThresholdSnoc(closed, run);
    assert RunsFrom(timeline, |timeline|, Some(run.team), run.points) == Flush(Some(run.team), run.points);
  }

  /** An entry of the open block's team adds its points to that block. */
  lemma RunsFromExtend(timeline: seq<Score>, i: nat, team: string, pts: int)
    requires i < |timeline| && timeline[i].team == team
    ensures RunsFrom(timeline, i, Some(team), pts) == RunsFrom(timeline, i + 1, Some(team), pts + timeline[i].points)
  {
  }

  /** An entry of another team reports the open block if it reaches the threshold and opens its own. */
  lemma RunsFromSwitch(timeline: seq<Score>, i: nat, team: string, pts: int)
    requires i < |timeline| && timeline[i].team != team
    ensures RunsFrom(timeline, i, Some(team), pts)
         == Flush(Some(team), pts) + RunsFrom(timeline, i + 1, Some(timeline[i].team), timeline[i].points)
  {
  }

  /** Reporting a closed block before the rest is the same as counting it among the closed ones. */
  lemma RunsFromClose(closed: seq<ScoringRun>, run: ScoringRun, rest: seq<ScoringRun>)
    ensures AtLeastThreshold(closed) + (Flush(Some(run.team), run.points) + rest)
         == AtLeastThreshold(closed + [run]) + rest
  {
    var done := AtLeastThreshold(closed);
    var flushed := Flush(Some(run.team), run.points);
    AtLeastThresholdSnoc(closed, run);
    assert AtLeastThreshold(closed + [run]) == done + flushed;
    AppendAssociative(done, flushed, rest);
  }

  lemma AppendAssociative(a: seq<ScoringRun>, b: seq<ScoringRun>, c: seq<ScoringRun>)
    ensures a + (b + c) == (a + b) + c
  {
  }

  /** The loop, started with no open block, reports exactly the runs of the timeline. */
  lemma RunsFromStart(timeline: seq<Score>)
    ensures RunsFrom(timeline, 0, None, 0) == Runs(timeline)
  {
    if timeline != [] {
      BlocksFirst(timeline);
      RunsFromBlocks(timeline, 1, [], timeline[0].team, timeline[0].points);
    }
  }

  /** The run loop of `summarize_parsed_game`: extends the current block or closes it. */
  method DetectRuns(timeline: seq<Score>) returns (runs: seq<ScoringRun>)
    ensures runs == Runs(timeline)
  {
    RunsFromStart(timeline);
    runs := [];
    var currentTeam: Option<string> := None;
    var runPts := 0;
    var i := 0;
    while i < |timeline|
      invariant 0 <= i <= |timeline|
      invariant currentTeam.None? ==> runPts == 0
      invariant runs + RunsFrom(timeline, i, currentTeam, runPts) == Runs(timeline)
    {
      var entry := timeline[i];
      if currentTeam == Some(entry.team) {
        runPts := runPts + entry.points;
      } else {
        if runPts >= RunThreshold {
          runs := runs + [ScoringRun(currentTeam.value, runPts)];
        }
        currentTeam := Some(entry.team);
        runPts := entry.points;
      }
      i := i + 1;
    }
    if runPts >= RunThreshold {
      runs := runs + [ScoringRun(currentTeam.value, runPts)];
    }
  }

  /** An empty timeline has no runs. */
  lemma NoTimelineNoRuns()
    ensures Runs([]) == []
  {
  }

  // ---------------------------------------------------------------------------
  // The summary record
  // ---------------------------------------------------------------------------

  /** The f-string `f"{made}/{attempts}"`. */
  function FractionText(made: nat, attempts: nat): string {
    NatToString(made) + "/" + NatToString(attempts)
  }

  /** Reads a "made/attempted" string back. */
  function ParseFraction(s: string): Option<(nat, nat)> {
    var parts := Split(s, '/');
    if |parts| == 2 && AllDigits(parts[0]) && AllDigits(parts[1]) && parts[0] != [] && parts[1] != [] then
      Some((ParseDigits(parts[0]), ParseDigits(parts[1])))
    else
      None
  }

  /** A numeral has no slash. */
  lemma NumeralHasNoSlash(n: nat)
    ensures '/' !in NatToString(n)
  {
    var s := NatToString(n);
    forall i | 0 <= i < |s|
      ensures s[i] != '/'
    {
      assert IsDigit(s[i]);
    }
  }

  /** A "made/attempted" string gives back both of its counters. */
  lemma FractionRoundTrip(made: nat, attempts: nat)
    ensures ParseFraction(FractionText(made, attempts)) == Some((made, attempts))
  {
    NumeralHasNoSlash(made);
    NumeralHasNoSlash(attempts);
    SplitAfter(NatToString(made), NatToString(attempts), '/');
    SplitWithout(NatToString(attempts), '/');
    ParseNatToString(made);
    ParseNatToString(attempts);
  }

  /** The result of the game as the narrative tells it. */
  datatype Outcome = Outcome(winner: string, loser: string, margin: nat)

  /**
   * The winner is the first team only with strictly more points, so a tie goes to the second;
   * the loser is the other slot; the margin is the absolute difference. With two different
   * teams, winner and loser are the two teams and the winner has at least the loser's points.
   */
  function Decide(a: string, b: string, pa: int, pb: int): (o: Outcome)
    ensures o.winner in {a, b} && o.loser in {a, b}
    ensures pa > pb ==> o.winner == a
    ensures a != b ==> (o.winner == a <==> pa > pb)
    ensures pa == pb ==> o.winner == b
    ensures a != b ==> o.loser != o.winner
    ensures a != b ==> o.margin == (if o.winner == a then pa - pb else pb - pa)
    ensures o.margin == pa - pb || o.margin == pb - pa
  {
    var winner := if pa > pb then a else b;
    var loser := if winner == a then b else a;
    Outcome(winner, loser, if pa >= pb then pa - pb else pb - pa)
  }

  /** `str(n)` for an integer. */
  function IntText(n: int): string {
    if n < 0 then "-" + NatToString(-n) else NatToString(n)
  }

  /** The clause for one run. */
  function RunText(run: ScoringRun): string {
    run.team + " had a " + IntText(run.points) + "-point run"
  }

  /** One clause per run, in run order. */
  function RunTexts(runs: seq<ScoringRun>): (r: seq<string>)
    ensures |r| == |runs|
    ensures forall i :: 0 <= i < |runs| ==> r[i] == RunText(runs[i])
  {
    if runs == [] then [] else [RunText(runs[0])] + RunTexts(runs[1..])
  }

  /** The opening sentence of the narrative. */
  function NarrativeHead(o: Outcome): string {
    o.winner + " defeated " + o.loser + " by " + NatToString(o.margin) + " points. "
  }

  /** The narrative template. */
  function Narrative(o: Outcome, threes: map<string, string>, turnovers: map<string, nat>, runs: seq<ScoringRun>): string
    requires o.winner in threes && o.loser in threes && o.winner in turnovers
  {
    NarrativeHead(o)
    + (o.winner + " made " + threes[o.winner] + " threes compared to "
       + threes[o.loser] + " by " + o.loser + ". "
       + o.winner + " committed " + NatToString(turnovers[o.winner]) + " turnovers. "
       + Join(" ", RunTexts(runs)))
  }

  /** The summary dictionary: each map is keyed by the two reported teams. */
  datatype Summary = Summary(
    teams: seq<string>,
    finalScore: map<string, nat>,
    threePointers: map<string, string>,
    fieldGoals: map<string, string>,
    freeThrows: map<string, string>,
    turnovers: map<string, nat>,
    rebounds: map<string, nat>,
    fouls: map<string, nat>,
    steals: map<string, nat>,
    scoringRuns: seq<ScoringRun>,
    narrative: string)

  /** Why no summary is produced. */
  datatype SummaryError =
    | EmptyInput     // the play list is empty
    | NotEnoughTeams // no play touched a counter, so two teams cannot be unpacked

  /**
   * The summary for teams `a` and `b` with records `sa` and `sb`. As in a dict display, when
   * `a` and `b` are the same team the second entry is the one kept.
   */
  function BuildSummary(a: string, b: string, sa: Stats, sb: Stats, runs: seq<ScoringRun>): (s: Summary)
    ensures s.teams == [a, b]
    ensures a in s.finalScore && b in s.finalScore
  {
    var threes := map[a := FractionText(sa.threeMade, sa.threeAttempts)][b := FractionText(sb.threeMade, sb.threeAttempts)];
    var turnovers := map[a := sa.turnovers][b := sb.turnovers];
    var o := Decide(a, b, sa.points, sb.points);
    Summary(
      [a, b],
      map[a := sa.points][b := sb.points],
      threes,
      map[a := FractionText(sa.fgMade, sa.fgAttempts)][b := FractionText(sb.fgMade, sb.fgAttempts)],
      map[a := FractionText(sa.ftMade, sa.ftAttempts)][b := FractionText(sb.ftMade, sb.ftAttempts)],
      turnovers,
      map[a := sa.rebounds][b := sb.rebounds],
      map[a := sa.fouls][b := sb.fouls],
      map[a := sa.steals][b := sb.steals],
      runs,
      Narrative(o, threes, turnovers, runs))
  }

  /** The counters a summary reports for one team, with each "made/attempted" string read back. */
  predicate Reports(s: Summary, team: string, st: Stats) {
    && team in s.finalScore && s.finalScore[team] == st.points
    && team in s.threePointers && ParseFraction(s.threePointers[team]) == Some((st.threeMade, st.threeAttempts))
    && team in s.fieldGoals && ParseFraction(s.fieldGoals[team]) == Some((st.fgMade, st.fgAttempts))
    && team in s.freeThrows && ParseFraction(s.freeThrows[team]) == Some((st.ftMade, st.ftAttempts))
    && team in s.turnovers && s.turnovers[team] == st.turnovers
    && team in s.rebounds && s.rebounds[team] == st.rebounds
    && team in s.fouls && s.fouls[team] == st.fouls
    && team in s.steals && s.steals[team] == st.steals
  }

  /** The summary reports the second team's record exactly, and the first team's whenever it is a different team. */
  lemma SummaryReports(a: string, b: string, sa: Stats, sb: Stats, runs: seq<ScoringRun>)
    ensures Reports(BuildSummary(a, b, sa, sb, runs), b, sb)
    ensures a != b ==> Reports(BuildSummary(a, b, sa, sb, runs), a, sa)
  {
    FractionRoundTrip(sa.threeMade, sa.threeAttempts);
    FractionRoundTrip(sa.fgMade, sa.fgAttempts);
    FractionRoundTrip(sa.ftMade, sa.ftAttempts);
    FractionRoundTrip(sb.threeMade, sb.threeAttempts);
    FractionRoundTrip(sb.fgMade, sb.fgAttempts);
    FractionRoundTrip(sb.ftMade, sb.ftAttempts);
  }

  /** The narrative opens by naming the winner, the loser and the margin that `Decide` gives. */
  lemma NarrativeOpens(a: string, b: string, sa: Stats, sb: Stats, runs: seq<ScoringRun>)
    ensures
      var o := Decide(a, b, sa.points, sb.points);
      o.winner + " defeated " + o.loser + " by " + NatToString(o.margin) + " points. "
        <= BuildSummary(a, b, sa, sb, runs).narrative
  {
    var o := Decide(a, b, sa.points, sb.points);
    var threes := map[a := FractionText(sa.threeMade, sa.threeAttempts)][b := FractionText(sb.threeMade, sb.threeAttempts)];
    var turnovers := map[a := sa.turnovers][b := sb.turnovers];
    var n := Narrative(o, threes, turnovers, runs);
    assert BuildSummary(a, b, sa, sb, runs).narrative == n;
    var head := NarrativeHead(o);
    assert n == head + n[|head|..];
  }

  // ---------------------------------------------------------------------------
  // The whole function
  // ---------------------------------------------------------------------------

  /** The key order padded with "UNK" when it has fewer than two teams. */
  function PaddedTeams(order: seq<string>): seq<string> {
    if |order| < 2 then order + ["UNK"] else order
  }

  /** `summarize_parsed_game` on an in-memory play list, without the file read and write. */
  function Summarize(plays: seq<Play>): Result<Summary, SummaryError> {
    if plays == [] then Err(EmptyInput)
    else
      var t := Accumulate(plays);
      var teams := PaddedTeams(t.order);
      if |teams| < 2 then Err(NotEnoughTeams)
      else Ok(BuildSummary(teams[0], teams[1], Lookup(t, teams[0]), Lookup(t, teams[1]), Runs([])))
  }

  /** With no play of its own that touches a counter, a team's counters are all zero. */
  lemma UntouchedIsZero(plays: seq<Play>, team: string)
    requires forall i :: 0 <= i < |plays| && Touches(plays[i]) ==> TeamOf(plays[i]) != team
    ensures TeamStats(plays, team) == Zero
    ensures team !in Accumulate(plays).stats
  {
    AccumulateLookup(plays, team);
  }

  /** A team has a key exactly when it is in the key order, and then one of its plays touched a counter. */
  lemma OrderedTeamTouched(plays: seq<Play>, k: nat)
    requires k < |Accumulate(plays).order|
    ensures exists i :: 0 <= i < |plays| && Touches(plays[i]) && TeamOf(plays[i]) == Accumulate(plays).order[k]
  {
    AccumulateValid(plays);
    AccumulateLookup(plays, Accumulate(plays).order[k]);
  }

  /**
   * An empty play list is refused first; otherwise there is no summary exactly when no play
   * touched a counter, because the key list then holds only the padding "UNK".
   */
  lemma SummarizeFails(plays: seq<Play>)
    ensures Summarize(plays) == Err(EmptyInput) <==> plays == []
    ensures Summarize(plays) == Err(NotEnoughTeams) <==> plays != [] && forall i :: 0 <= i < |plays| ==> !Touches(plays[i])
  {
    if plays != [] {
      var order := Accumulate(plays).order;
      if exists i :: 0 <= i < |plays| && Touches(plays[i]) {
        var i :| 0 <= i < |plays| && Touches(plays[i]);
        AccumulateValid(plays);
        AccumulateLookup(plays, TeamOf(plays[i]));
        assert TeamOf(plays[i]) in order;
      } else if order != [] {
        OrderedTeamTouched(plays, 0);
      }
    }
  }

  /** Before the first play that touches a counter, the key list is empty. */
  lemma NoTouchNoKeys(plays: seq<Play>)
    requires forall i :: 0 <= i < |plays| ==> !Touches(plays[i])
    ensures Accumulate(plays).order == []
  {
    if Accumulate(plays).order != [] {
      OrderedTeamTouched(plays, 0);
    }
  }

  /** The first key is the team of the first play that touched a counter. */
  lemma FirstKey(plays: seq<Play>, first: nat)
    requires first < |plays| && Touches(plays[first])
    requires forall j :: 0 <= j < first ==> !Touches(plays[j])
    ensures |Accumulate(plays).order| > 0 && Accumulate(plays).order[0] == TeamOf(plays[first])
  {
    var before := Accumulate(plays[..first]);
    NoTouchNoKeys(plays[..first]);
    AccumulateValid(plays[..first]);
    assert TeamOf(plays[first]) !in before.stats;
    AccumulateStep(plays, first);
    assert Accumulate(plays[..first + 1]).order == [TeamOf(plays[first])];
    OrderGrows(plays, first + 1);
  }

  /** A second key exists exactly when a play of another team touched a counter, and it is such a team. */
  lemma SecondKey(plays: seq<Play>)
    requires |Accumulate(plays).order| > 0
    ensures var order := Accumulate(plays).order;
      && ((exists i :: 0 <= i < |plays| && Touches(plays[i]) && TeamOf(plays[i]) != order[0]) <==> |order| >= 2)
      && (|order| >= 2 ==> order[1] != order[0] && exists i :: 0 <= i < |plays| && Touches(plays[i]) && TeamOf(plays[i]) == order[1])
  {
    var order := Accumulate(plays).order;
    AccumulateValid(plays);
    if exists i :: 0 <= i < |plays| && Touches(plays[i]) && TeamOf(plays[i]) != order[0] {
      var i :| 0 <= i < |plays| && Touches(plays[i]) && TeamOf(plays[i]) != order[0];
      AccumulateLookup(plays, TeamOf(plays[i]));
      assert TeamOf(plays[i]) in order;
    }
    if |order| >= 2 {
      OrderedTeamTouched(plays, 1);
    }
  }

  /**
   * The second key is the team of the first counter-touching play that is not the first
   * key's team.
   */
  lemma SecondKeyFirstTouch(plays: seq<Play>, i: nat)
    requires |Accumulate(plays).order| > 0
    requires i < |plays| && Touches(plays[i]) && TeamOf(plays[i]) != Accumulate(plays).order[0]
    requires forall j :: 0 <= j < i && Touches(plays[j]) ==> TeamOf(plays[j]) == Accumulate(plays).order[0]
    ensures |Accumulate(plays).order| >= 2 && Accumulate(plays).order[1] == TeamOf(plays[i])
  {
    var order := Accumulate(plays).order;
    var prefix := Accumulate(plays[..i]).order;
    FirstTouchPlaced(plays, i);
    OrderGrows(plays, i);
    AccumulateValid(plays[..i]);
    if |prefix| >= 2 {
      // The second key of the prefix would be a team other than the first key that touched
      // a counter before play i.
      OrderedTeamTouched(plays[..i], 1);
      assert false;
    }
  }

  /**
   * The reported teams: the first is the team of the first play that touched a counter; the
   * second is the team of the first counter-touching play of another team when there is one,
   * and the padding "UNK" when one team alone touched counters.
   */
  lemma SummarizeTeams(plays: seq<Play>, first: nat)
    requires Summarize(plays).Ok?
    requires first < |plays| && Touches(plays[first])
    requires forall j :: 0 <= j < first ==> !Touches(plays[j])
    ensures var s := Summarize(plays).value;
      && |s.teams| == 2
      && s.teams[0] == TeamOf(plays[first])
      && ((exists i :: 0 <= i < |plays| && Touches(plays[i]) && TeamOf(plays[i]) != s.teams[0]) ==>
            s.teams[1] != s.teams[0] && exists i :: 0 <= i < |plays| && Touches(plays[i]) && TeamOf(plays[i]) == s.teams[1])
      && (forall i :: 0 <= i < |plays| && Touches(plays[i]) && TeamOf(plays[i]) != s.teams[0]
                      && (forall j :: 0 <= j < i && Touches(plays[j]) ==> TeamOf(plays[j]) == s.teams[0])
                      ==> s.teams[1] == TeamOf(plays[i]))
      && ((forall i :: 0 <= i < |plays| && Touches(plays[i]) ==> TeamOf(plays[i]) == s.teams[0]) ==> s.teams[1] == "UNK")
  {
    FirstKey(plays, first);
    SecondKey(plays);
    var order := Accumulate(plays).order;
    forall i | 0 <= i < |plays| && Touches(plays[i]) && TeamOf(plays[i]) != order[0]
               && (forall j :: 0 <= j < i && Touches(plays[j]) ==> TeamOf(plays[j]) == order[0])
      ensures |order| >= 2 && order[1] == TeamOf(plays[i])
    {
      SecondKeyFirstTouch(plays, i);
    }
  }

  /**
   * The summary reports, for each of its two teams, exactly the counters of that team's own
   * plays (all zero for the padding), and its list of runs is empty since the timeline is
   * never filled.
   */
  lemma SummarizeReports(plays: seq<Play>)
    requires Summarize(plays).Ok?
    ensures var s := Summarize(plays).value;
      && |s.teams| == 2
      && Reports(s, s.teams[1], TeamStats(plays, s.teams[1]))
      && (s.teams[0] != s.teams[1] ==> Reports(s, s.teams[0], TeamStats(plays, s.teams[0])))
      && s.scoringRuns == []
  {
    var t := Accumulate(plays);
    var teams := PaddedTeams(t.order);
    AccumulateLookup(plays, teams[0]);
    AccumulateLookup(plays, teams[1]);
    SummaryReports(teams[0], teams[1], Lookup(t, teams[0]), Lookup(t, teams[1]), Runs([]));
  }

  /**
   * The box-score identities as the summary prints them: in each reported "made/attempted"
   * pair made does not exceed attempted, three-point attempts are field-goal attempts, and
   * the final score is two per field goal, one more per three and one per free throw.
   */
  predicate AddsUp(s: Summary, team: string) {
    && team in s.finalScore && team in s.threePointers && team in s.fieldGoals && team in s.freeThrows
    && var three := ParseFraction(s.threePointers[team]);
    && var fg := ParseFraction(s.fieldGoals[team]);
    && var ft := ParseFraction(s.freeThrows[team]);
    && three.Some? && fg.Some? && ft.Some?
    && three.value.0 <= three.value.1 && fg.value.0 <= fg.value.1 && ft.value.0 <= ft.value.1
    && three.value.1 <= fg.value.1 && three.value.0 <= fg.value.0
    && s.finalScore[team] == 2 * fg.value.0 + three.value.0 + ft.value.0
  }

  /** Both reported teams' numbers obey the box-score identities. */
  lemma SummarizeAddsUp(plays: seq<Play>)
    requires Summarize(plays).Ok?
    ensures var s := Summarize(plays).value; |s.teams| == 2 && AddsUp(s, s.teams[0]) && AddsUp(s, s.teams[1])
  {
    var s := Summarize(plays).value;
    SummarizeReports(plays);
    TeamStatsWellFormed(plays, s.teams[0]);
    TeamStatsWellFormed(plays, s.teams[1]);
  }

  /** One iteration of the loop: the elif chain applied to the play's team record. */
  method CountPlay(s: Stats, evt: string) returns (s': Stats, touched: bool)
    ensures touched <==> !BranchOf(evt).NoStat?
    ensures s' == Apply(s, BranchOf(evt))
  {
    s' := s;
    touched := true;
    if Contains(evt, "3PT") {
      s' := s'.(threeAttempts := s'.threeAttempts + 1, fgAttempts := s'.fgAttempts + 1);
      if Contains(evt, "MADE") {
        s' := s'.(points := s'.points + 3, threeMade := s'.threeMade + 1, fgMade := s'.fgMade + 1);
      }
    } else if Contains(evt, "FT") {
      s' := s'.(ftAttempts := s'.ftAttempts + 1);
      if Contains(evt, "MADE") {
        s' := s'.(points := s'.points + 1, ftMade := s'.ftMade + 1);
      }
    } else if Contains(evt, "MADE") && !Contains(evt, "3PT") && !Contains(evt, "FT") {
      s' := s'.(points := s'.points + 2, fgMade := s'.fgMade + 1, fgAttempts := s'.fgAttempts + 1);
    } else if Contains(evt, "MISS") && !Contains(evt, "3PT") && !Contains(evt, "FT") {
      s' := s'.(fgAttempts := s'.fgAttempts + 1);
    } else if Contains(evt, "TURNOVER") {
      s' := s'.(turnovers := s'.turnovers + 1);
    } else if Contains(evt, "REBOUND") {
      s' := s'.(rebounds := s'.rebounds + 1);
    } else if Contains(evt, "FOUL") {
      s' := s'.(fouls := s'.fouls + 1);
    } else if Contains(evt, "STEAL") {
      s' := s'.(steals := s'.steals + 1);
    } else {
      touched := false;
    }
  }

  /** The loop of `summarize_parsed_game`, the run detection, the team choice and the summary. */
  method SummarizeParsedGame(plays: seq<Play>) returns (r: Result<Summary, SummaryError>)
    ensures r == Summarize(plays)
  {
    if |plays| == 0 {
      return Err(EmptyInput);
    }
    var teamStats: map<string, Stats> := map[];
    var order: seq<string> := [];
    var i := 0;
    while i < |plays|
      invariant 0 <= i <= |plays|
      invariant Table(teamStats, order) == Accumulate(plays[..i])
    {
      var play := plays[i];
      var team := play.team.GetOr("UNK");
      var evt := play.eventType.GetOr("");
      var s, touched := CountPlay(if team in teamStats then teamStats[team] else Zero, evt);
      if touched {
        if team !in teamStats {
          order := order + [team];
        }
        teamStats := teamStats[team := s];
      }
      AccumulateStep(plays, i);
      i := i + 1;
    }
    assert plays[..i] == plays;
    var runs := DetectRuns([]);
    var teams := PaddedTeams(order);
    if |teams| < 2 {
      return Err(NotEnoughTeams);
    }
    var teamA, teamB := teams[0], teams[1];
    var aStats := if teamA in teamStats then teamStats[teamA] else Zero;
    var bStats := if teamB in teamStats then teamStats[teamB] else Zero;
    r := Ok(BuildSummary(teamA, teamB, aStats, bStats, runs));
  }
}
