# playmind-nba: the parse-and-summarise pipeline, modelled in Dafny

This project models the part of playmind-nba that turns an NBA play-by-play log into box-score statistics. It proves properties of that model. There are four pieces:

- **Event classifier** (`src/utils/parse_game_data.py`):
  - `parse_event_type` maps a play description to one event tag through a first-match keyword chain.
  - `extract_points` reads a "(N PTS)" annotation.
  - `extract_player` takes the leading name-like prefix.
  - The row loop of `parse_game_data` turns every play-by-play row with text into one event. The team code comes from the row, else from the first code seen on the same side, else "UNK".
- **Game aggregator** (`src/utils/summarize_parsed_data.py`, `summarize_parsed_game`):
  - One pass keeps a counter record per team in a dictionary. It dispatches through an elif chain of substring tests.
  - Scoring runs are detected over a timeline.
  - The first two teams are taken, padded with "UNK" when fewer are found.
  - A summary is built with "made/attempted" strings and a narrative.
- **Context text counter** (`src/utils/preprocess.py`, `summarize_game_data`):
  - Counts home and away three-point lines.
  - Collects capitalised words.
- **The question-answering copy** of that counter (`src/rag/qa_engine.py`, lines 16-43). It adds `str` coercion and an "Unknown" fallback.

The modules are:

| module | file | what it holds |
|---|---|---|
| `Wrappers` | Wrappers.dfy | `Option` and `Result` |
| `Text` | Text.dfy | Python's substring test, ASCII upper/lower case, `strip`, `split`, `join`, and decimal numerals with their round trip |
| `Classifier` | Classifier.dfy | `parse_event_type`, `extract_points` (a model of the `re.search`), `extract_player` |
| `RowParser` | RowParser.dfy | the row loop of `parse_game_data`, as a method proved against a specification over the rows |
| `Aggregator` | Aggregator.dfy | the counter record, the elif chain, and the team dictionary with its key order and its invariants |
| `Summarizer` | Summarizer.dfy | run detection, team choice, the summary record, the narrative, and `summarize_parsed_game` as a method |
| `ContextSummary` | ContextSummary.dfy | both `summarize_game_data` functions |

Each loop of the source is a `method` proved equal to a specification function. The properties are stated about those functions:
- counter invariants;
- the first-seen team code;
- the iff-conditions of the classifier;
- round trips of the "made/attempted" strings and of the point annotation;
- both directions of the word extraction.

Where the code departs from what a box score evidently intends, the model follows the code:
- **Points come from the annotation.** An event's points are the number in the description's "(N PTS)" annotation (`parse_game_data.py:105`). It is not the canonical 1/2/3 value of the event kind.
- **The scoring timeline is never filled.** `scoring_timeline` is never appended to (`summarize_parsed_data.py:18`). So `summarize_parsed_game` always reports no runs, although its run loop is written over the scoring plays. Run detection is therefore modelled over a given timeline (`Summarizer.DetectRuns`). The empty case is stated separately (`Summarizer.SummarizeReports`).
- **Other behaviours kept as written:**
  - a tie names the second team as winner;
  - FOUL+TURNOVER counts as a turnover;
  - the team fallback keeps the first code ever seen on a side.

## Model

| member | source | states |
|---|---|---|
| Text.Strip | src/utils/parse_game_data.py:72-73 | `str.strip()` leaves no Python whitespace at either end and never lengthens the text |
| Text.StripEmpty | src/utils/preprocess.py:7 | a line strips to the empty string exactly when all its characters are whitespace, so only such lines are dropped |
| Text.Split | src/utils/preprocess.py:7 | `split("\n")` gives at least one piece, no piece holds the separator, and joining the pieces back gives the text |
| Text.UpperIdempotent | src/utils/parse_game_data.py:9 | upper-casing twice is upper-casing once |
| Text.ParseNatToString | src/utils/summarize_parsed_data.py:87 | a number printed in decimal reads back as the same number |
| Text.NatToStringInjective | src/utils/summarize_parsed_data.py:87 | different numbers print differently |
| Text.ContainsPrefix | src/utils/preprocess.py:16 | a text containing a word contains every prefix of it |
| Classifier.ParseEventType | src/utils/parse_game_data.py:8-47 | total, one tag; 3PT_MADE/3PT_MISSED exactly when "3PT" occurs; in every shot family the missed tag exactly when "MISS" occurs; no jump-shot tag when "CLOCK" occurs; OTHER exactly when no keyword fires |
| Classifier.CaseInsensitive | src/utils/parse_game_data.py:9 | the tag depends only on the upper-cased description |
| Classifier.FoulStealTurnoverOrder | src/utils/parse_game_data.py:32-39 | with no shot or rebound keyword, FOUL+TURNOVER is chosen before FOUL, FOUL before STEAL, STEAL before TURNOVER |
| Classifier.ClassifyByTable | src/utils/parse_game_data.py:8-47 | the if-chain equals a first-match search over a priority table of (keywords, excluded keywords, tag) rules |
| Classifier.ChainIsTable | src/utils/parse_game_data.py:10-47 | on upper-cased text, the chain and the table's first match agree |
| Classifier.HeadConditions | src/utils/parse_game_data.py:10-29 | when each shot-family rule fires, with "MISS" deciding made or missed |
| Classifier.ThreeLayupConditions | src/utils/parse_game_data.py:10-21 | the three-point and layup rules fire as the chain's tests say |
| Classifier.ShotConditions | src/utils/parse_game_data.py:14-17 | the jump-shot rules need a SHOT/JUMPER/FADEAWAY marker and no "CLOCK" |
| Classifier.DunkFreeThrowConditions | src/utils/parse_game_data.py:22-29 | the dunk and free-throw rules fire as the chain's tests say |
| Classifier.TailConditions | src/utils/parse_game_data.py:30-45 | when the rebound, foul, steal, turnover, block, substitution and timeout rules fire |
| Classifier.TableMiddle | src/utils/parse_game_data.py:18-47 | from the layup test on, the table's first match is the rest of the chain |
| Classifier.TableTail | src/utils/parse_game_data.py:30-47 | from the rebound test on, the table's first match is the rest of the chain |
| Classifier.KeywordLists | src/utils/parse_game_data.py:14-16 | the table's keyword lists mean the chain's `or` of substring tests |
| Classifier.ExtractPoints | src/utils/parse_game_data.py:50-52 | a non-zero result is the number of an annotation in the upper-cased text |
| Classifier.SearchPosition | src/utils/parse_game_data.py:51 | the search stops inside the text only at a position where the pattern matches |
| Classifier.SearchLeftmost | src/utils/parse_game_data.py:51 | no position before the one the search stops at matches: the match is the leftmost one |
| Classifier.SearchFound | src/utils/parse_game_data.py:51 | a found annotation starts with "(" and is the leftmost match from the start position on |
| Classifier.SearchMissing | src/utils/parse_game_data.py:51 | when nothing is found, no position from the start position on matches |
| Classifier.NoParenthesisNoPoints | src/utils/parse_game_data.py:50-52 | text without "(" scores 0 |
| Classifier.AnnotationRoundTrip | src/utils/parse_game_data.py:50-52 | "(N PTS)" after "("-free text reads back as N, whatever follows |
| Classifier.FirstAnnotation | src/utils/parse_game_data.py:51 | the leftmost annotation is the one matched |
| Classifier.SearchSkips | src/utils/parse_game_data.py:51 | the search passes over positions without "(" |
| Classifier.AnnotationFound | src/utils/parse_game_data.py:51 | "(digits PTS)" at a position matches there with the digits' value |
| Classifier.AnnotationSpelled | src/utils/parse_game_data.py:51 | "(", a digit run, one space and "PTS)" in a row match with the value of the digit run |
| Classifier.DigitRunEnd | src/utils/parse_game_data.py:51 | `\d+` takes the longest digit run |
| Classifier.SpaceRunEnd | src/utils/parse_game_data.py:51 | `\s*` takes the longest whitespace run |
| Classifier.ExtractPlayer | src/utils/parse_game_data.py:55-57 | "Unknown" when the text is empty or starts outside `[A-Za-z' .-]`; otherwise the stripped longest leading run of those characters |
| Classifier.ExtractPlayerShape | src/utils/parse_game_data.py:55-57 | otherwise the name is made of `[A-Za-z' .-]` characters, has no space at either end and is no longer than the text |
| Classifier.NameRunEnd | src/utils/parse_game_data.py:56 | the leading run of name characters is the longest one |
| RowParser.ReadsNanLower | src/utils/parse_game_data.py:72-73 | the "nan" test is `lower() == "nan"` |
| RowParser.DescriptionText | src/utils/parse_game_data.py:72-73 | a missing or NaN description is empty; a text is stripped, and is empty when it reads "nan" in any case before stripping |
| RowParser.CodeText | src/utils/parse_game_data.py:84-86 | the team code is stripped, empty for a missing or NaN cell, and never reads "nan"; a text cell gives its stripped text, or "" when that reads "nan" |
| RowParser.Clean | src/utils/parse_game_data.py:70-103 | the normalised description and code texts of a row are stripped |
| RowParser.CleanAll | src/utils/parse_game_data.py:68-73 | one normalised row per row |
| RowParser.CleanAllStep | src/utils/parse_game_data.py:68-73 | rows are normalised one at a time, in order |
| RowParser.CleanAllStripped | src/utils/parse_game_data.py:72-73 | every normalised description text is stripped |
| RowParser.Kept | src/utils/parse_game_data.py:74-77 | only rows with text on some side produce an event |
| RowParser.KeptSnoc | src/utils/parse_game_data.py:76-77 | one more row produces an event exactly when it has text |
| RowParser.KeptAllOrNone | src/utils/parse_game_data.py:74-77 | all rows with text give all rows; rows without text give no event |
| RowParser.KeptAppend | src/utils/parse_game_data.py:68-77 | kept rows of a concatenation are the kept rows of each part, in order |
| RowParser.KeptFrom | src/utils/parse_game_data.py:76-77 | every kept row is one of the input rows |
| RowParser.FirstSeen | src/utils/parse_game_data.py:88-92 | a remembered code is never empty |
| RowParser.FirstSeenMeaning | src/utils/parse_game_data.py:88-92 | a side has no remembered code exactly when none of its rows has a code, else it is the code of its earliest such row |
| RowParser.FirstSeenStable | src/utils/parse_game_data.py:89-92 | once set, a side's remembered code never changes |
| RowParser.FirstSeenSnoc | src/utils/parse_game_data.py:89-92 | the loop's update of the remembered code for one more row |
| RowParser.ResolveTeam | src/utils/parse_game_data.py:94-96 | the team is never empty, is the row's own code when it has one, is the first code seen on its side when it has none, and is "UNK" when neither it nor any earlier row of its side has a code |
| RowParser.EventConsistent | src/utils/parse_game_data.py:98-109 | an event's description is the home text if non-empty else the visitor text; HoA is the home label iff the home text is non-empty; event_type and points come from that description |
| RowParser.Scan | src/utils/parse_game_data.py:110 | one result per kept row |
| RowParser.ScanAt | src/utils/parse_game_data.py:110 | the j-th result is built from the j-th row and the rows before it |
| RowParser.ScanSnoc | src/utils/parse_game_data.py:110 | one more row appends one result |
| RowParser.EventsAt | src/utils/parse_game_data.py:98-110 | the j-th event comes from the j-th kept row and the kept rows before it |
| RowParser.EventsSnoc | src/utils/parse_game_data.py:110 | a kept row appends its event at the end |
| RowParser.EventsConsistent | src/utils/parse_game_data.py:98-110 | every returned event is consistent in the sense of `EventConsistent` |
| RowParser.ParseGameData | src/utils/parse_game_data.py:63-118 | the loop returns exactly one event per row with text, in row order, with the team fallback of the first-seen code |
| Aggregator.Apply | src/utils/summarize_parsed_data.py:28-53 | a play outside the chain changes nothing; points grow by what the arm scores (3, 1, 2 or 0); none of the ten counters decreases |
| Aggregator.ApplyWellFormed | src/utils/summarize_parsed_data.py:28-45 | each arm keeps made ≤ attempted, 3PA ≤ FGA, 3PM ≤ FGM and points = 2·FGM + 3PM + FTM |
| Aggregator.AccumulateStep | src/utils/summarize_parsed_data.py:23-53 | the table after one more play is one loop step on the table before it |
| Aggregator.StepKeys | src/utils/summarize_parsed_data.py:23-53 | a step keeps the keys equal to the teams of the key order |
| Aggregator.StepDistinct | src/utils/summarize_parsed_data.py:23-53 | a step adds a team to the key order only when it is new |
| Aggregator.UpdateWellFormed | src/utils/summarize_parsed_data.py:28-45 | storing a well-formed record keeps every record well formed |
| Aggregator.StepWellFormed | src/utils/summarize_parsed_data.py:28-45 | a step keeps every team's counter invariants |
| Aggregator.AccumulateValid | src/utils/summarize_parsed_data.py:17-53 | after any plays, keys and key order agree, no team is listed twice, and every record keeps the counter invariants |
| Aggregator.TeamStatsWellFormed | src/utils/summarize_parsed_data.py:28-45 | the counter invariants hold for every team after any plays |
| Aggregator.AccumulateLookup | src/utils/summarize_parsed_data.py:23-53 | each play counts only for its own team (a missing team is "UNK"); a team has a key exactly when one of its plays touched a counter |
| Aggregator.OrderGrows | src/utils/summarize_parsed_data.py:76 | the key order of a prefix of the plays is a prefix of the whole key order |
| Aggregator.FirstTouchPlaced | src/utils/summarize_parsed_data.py:20-76 | a team's key is placed at its first counter-touching play, right after the keys already there, so `keys()` lists teams by first touch |
| Aggregator.PointsIgnored | src/utils/summarize_parsed_data.py:26 | the play's own "points" value never affects any counter |
| Aggregator.TagBranches | src/utils/summarize_parsed_data.py:28-53 | every tag the parser writes takes the intended arm; FOUL+TURNOVER counts as a turnover; BLOCK, SUBSTITUTION, TIMEOUT and OTHER change nothing |
| Aggregator.ThreeMadeArm | src/utils/summarize_parsed_data.py:28-34 | "3PT_MADE" is a made three |
| Aggregator.ThreeMissedArm | src/utils/summarize_parsed_data.py:28-30 | "3PT_MISSED" is a missed three |
| Aggregator.FtMadeArm | src/utils/summarize_parsed_data.py:35-39 | "FT_MADE" is a made free throw |
| Aggregator.FtMissedArm | src/utils/summarize_parsed_data.py:35-36 | "FT_MISSED" is a missed free throw |
| Aggregator.ShotMadeArm | src/utils/summarize_parsed_data.py:40-43 | "SHOT_MADE" and "DUNK_MADE" are made twos |
| Aggregator.LayupMadeArm | src/utils/summarize_parsed_data.py:40-43 | "LAYUP_MADE" is a made two |
| Aggregator.ShotMissedArm | src/utils/summarize_parsed_data.py:44-45 | "SHOT_MISSED" is a missed field goal |
| Aggregator.DunkMissedArm | src/utils/summarize_parsed_data.py:44-45 | "DUNK_MISSED" is a missed field goal |
| Aggregator.LayupMissedArm | src/utils/summarize_parsed_data.py:44-45 | "LAYUP_MISSED" is a missed field goal |
| Aggregator.FoulTurnoverArm | src/utils/summarize_parsed_data.py:46-47 | "FOUL+TURNOVER" is a turnover, not a foul |
| Aggregator.TurnoverArm | src/utils/summarize_parsed_data.py:46-47 | "TURNOVER" is a turnover |
| Aggregator.ReboundArm | src/utils/summarize_parsed_data.py:48-49 | "REBOUND" is a rebound |
| Aggregator.FoulArm | src/utils/summarize_parsed_data.py:50-51 | "FOUL" is a foul |
| Aggregator.StealArm | src/utils/summarize_parsed_data.py:52-53 | "STEAL" is a steal |
| Aggregator.NoKeywordNoStat | src/utils/summarize_parsed_data.py:28-53 | a type with none of the chain's keywords changes nothing |
| Aggregator.BlockArm | src/utils/summarize_parsed_data.py:28-53 | "BLOCK" changes nothing |
| Aggregator.SubstitutionNoShot | src/utils/summarize_parsed_data.py:28-45 | "SUBSTITUTION" fails every shot test |
| Aggregator.SubstitutionNoTurnover | src/utils/summarize_parsed_data.py:46-49 | "SUBSTITUTION" fails the turnover and rebound tests, though it contains "TU" |
| Aggregator.SubstitutionNoFoul | src/utils/summarize_parsed_data.py:50-53 | "SUBSTITUTION" fails the foul and steal tests, though it contains "ST" |
| Aggregator.SubstitutionArm | src/utils/summarize_parsed_data.py:28-53 | "SUBSTITUTION" changes nothing |
| Aggregator.TimeoutArm | src/utils/summarize_parsed_data.py:28-53 | "TIMEOUT" changes nothing |
| Aggregator.OtherArm | src/utils/summarize_parsed_data.py:28-53 | "OTHER" changes nothing |
| Summarizer.Blocks | src/utils/summarize_parsed_data.py:60-71 | blocks exist exactly when entries do, never outnumber them, and the last block is the last entry's team |
| Summarizer.BlocksSnoc | src/utils/summarize_parsed_data.py:62-69 | the blocks of one more entry are those of the entries before it with that entry added |
| Summarizer.AddEntry | src/utils/summarize_parsed_data.py:62-69 | adding an entry leaves a non-empty list whose last block is the entry's team, one block longer at most |
| Summarizer.AddEntryStep | src/utils/summarize_parsed_data.py:62-69 | an entry of the current block's team adds its points to that block; any other closes the block and opens a new one with its points |
| Summarizer.BlocksStep | src/utils/summarize_parsed_data.py:62-69 | the blocks of one more entry, for a current block of known team and total |
| Summarizer.BlocksFirst | src/utils/summarize_parsed_data.py:62-69 | the first entry opens the first block |
| Summarizer.AddEntryPoints | src/utils/summarize_parsed_data.py:62-69 | adding an entry adds exactly its points to the blocks' total |
| Summarizer.BlocksAlternate | src/utils/summarize_parsed_data.py:62-69 | blocks are maximal: neighbouring blocks belong to different teams |
| Summarizer.BlocksKeepPoints | src/utils/summarize_parsed_data.py:62-69 | the block totals add up to the timeline's points |
| Summarizer.AtLeastThresholdKeeps | src/utils/summarize_parsed_data.py:66-71 | every reported run has at least 8 points and is a block; every block with at least 8 points is reported |
| Summarizer.AtLeastThresholdSnoc | src/utils/summarize_parsed_data.py:66-67 | closing a block appends it exactly when it reaches 8, keeping run order |
| Summarizer.RunsFromExtend | src/utils/summarize_parsed_data.py:63-64 | an entry of the open block's team adds its points to that block |
| Summarizer.RunsFromSwitch | src/utils/summarize_parsed_data.py:65-69 | an entry of another team reports the open block when it has at least 8 points and opens its own block |
| Summarizer.RunsFromEnd | src/utils/summarize_parsed_data.py:70-71 | at the end the open block is reported when it has at least 8 points |
| Summarizer.RunsFromClose | src/utils/summarize_parsed_data.py:66-69 | reporting a closed block before the rest is the same as counting it among the closed blocks |
| Summarizer.RunsFromBlocks | src/utils/summarize_parsed_data.py:60-71 | from any point of the loop, the runs already reported plus those still to come are the timeline's blocks of at least 8 points |
| Summarizer.RunsFromStart | src/utils/summarize_parsed_data.py:60-71 | the loop, started with no open block, reports exactly the timeline's blocks of at least 8 points, in order |
| Summarizer.DetectRuns | src/utils/summarize_parsed_data.py:60-71 | the run loop, final flush included, returns the blocks of at least 8 points in order |
| Summarizer.NoTimelineNoRuns | src/utils/summarize_parsed_data.py:18 | an empty timeline has no runs |
| Summarizer.NumeralHasNoSlash | src/utils/summarize_parsed_data.py:87 | a printed count holds no "/" |
| Summarizer.FractionRoundTrip | src/utils/summarize_parsed_data.py:87-96 | a "made/attempted" string reads back as both counters |
| Summarizer.Decide | src/utils/summarize_parsed_data.py:108-110 | the winner is team_a iff it has strictly more points, so a tie goes to team_b; the loser is the other slot; the margin is the absolute difference |
| Summarizer.RunTexts | src/utils/summarize_parsed_data.py:111 | one "<team> had a <n>-point run" clause per run, in run order |
| Summarizer.BuildSummary | src/utils/summarize_parsed_data.py:83-103 | the summary's teams are the two chosen teams and both have a final score |
| Summarizer.SummaryReports | src/utils/summarize_parsed_data.py:83-103 | each map reports team_b's counters exactly (a duplicated key keeps the later entry), and team_a's when it is a different team |
| Summarizer.NarrativeOpens | src/utils/summarize_parsed_data.py:113-114 | the narrative opens "<winner> defeated <loser> by <margin> points. " |
| Summarizer.UntouchedIsZero | src/utils/summarize_parsed_data.py:81 | a team none of whose plays touched a counter, such as the padding "UNK", has all-zero counters and no key |
| Summarizer.OrderedTeamTouched | src/utils/summarize_parsed_data.py:76 | every listed team had a play that touched a counter |
| Summarizer.NoTouchNoKeys | src/utils/summarize_parsed_data.py:23-53 | until some play touches a counter there are no keys |
| Summarizer.FirstKey | src/utils/summarize_parsed_data.py:76 | the first key is the team of the first counter-touching play |
| Summarizer.SecondKey | src/utils/summarize_parsed_data.py:76-78 | a second key exists exactly when another team touched a counter, and it is such a team |
| Summarizer.SummarizeFails | src/utils/summarize_parsed_data.py:14-80 | an empty list raises the empty-input error; otherwise unpacking fails exactly when no play touched a counter |
| Summarizer.SecondKeyFirstTouch | src/utils/summarize_parsed_data.py:76-78 | the second key is the team of the first counter-touching play whose team is not the first key |
| Summarizer.SummarizeTeams | src/utils/summarize_parsed_data.py:76-80 | team_a is the first counter-touching play's team; team_b is the team of the first counter-touching play of another team when one exists, else "UNK" |
| Summarizer.SummarizeReports | src/utils/summarize_parsed_data.py:81-103 | final score, made/attempted strings and counts equal each reported team's own counters, and the run list is empty |
| Summarizer.SummarizeAddsUp | src/utils/summarize_parsed_data.py:83-97 | in the printed numbers made ≤ attempted, 3PA ≤ FGA, 3PM ≤ FGM, and final score = 2·FGM + 3PM + FTM |
| Summarizer.CountPlay | src/utils/summarize_parsed_data.py:28-53 | one iteration applies the arm the chain selects and reports whether it touched the record |
| Summarizer.SummarizeParsedGame | src/utils/summarize_parsed_data.py:14-121 | the whole function, loop and run detection included, returns `Summarize(plays)`: the error cases or the summary of the first two teams |
| ContextSummary.NonBlank | src/utils/preprocess.py:7 | the lines are stripped and non-empty, never outnumber the pieces, and every piece that is not blank gives its stripped line |
| ContextSummary.NonBlankSnoc | src/utils/preprocess.py:7 | a further piece appends its stripped line exactly when that line is not blank, so the lines keep the pieces' order |
| ContextSummary.NonBlankFrom | src/utils/preprocess.py:7 | every line is the stripped form of a piece |
| ContextSummary.HomeMarkIsHome | src/utils/preprocess.py:16 | the "HOMEDESCRIPTION" test is subsumed by the "HOME" test |
| ContextSummary.ThreeKindsExclusive | src/utils/preprocess.py:15-19 | no line is both a home and an away three, and both mention "3PT" |
| ContextSummary.CountsBounded | src/utils/preprocess.py:15-19 | home + away ≤ the number of lines containing "3PT" |
| ContextSummary.LowerRunEnd | src/utils/preprocess.py:21 | `[a-z]+` takes the longest lower-case run |
| ContextSummary.Tokens | src/utils/preprocess.py:21 | every match is an upper-case letter followed by lower-case letters |
| ContextSummary.TokensAreWords | src/utils/preprocess.py:21 | every match starts at an upper-case letter followed by a lower-case one and takes the whole lower-case run |
| ContextSummary.WordsAreTokens | src/utils/preprocess.py:21 | every upper-case letter followed by a lower-case one starts a match |
| ContextSummary.NamesMeaning | src/utils/preprocess.py:21-23 | a name is collected exactly when some line has it as a match |
| ContextSummary.NamesAreWords | src/utils/preprocess.py:21-23 | every collected name matches `[A-Z][a-z]+` |
| ContextSummary.CountLines | src/utils/preprocess.py:14-23 | the loop's counters are the home and away three counts and its set is the collected names |
| ContextSummary.PickNames | src/utils/preprocess.py:26 | at most two distinct names from the set (two when there are two), in any order |
| ContextSummary.TotalIsSum | src/utils/preprocess.py:28 | the reported total is home + away and reads back as that number |
| ContextSummary.SentenceFrame | src/utils/preprocess.py:25-29 | whatever names are listed, the sentence opens with "Detected teams: " and ends with the counts sentence |
| ContextSummary.SummarizeGameData | src/utils/preprocess.py:7-29 | the sentence reports a listing of the collected names and the home and away counts of the text's lines; whatever the set order, it opens with "Detected teams: " and ends with exactly those counts and their sum |
| ContextSummary.DetectedUnknown | src/rag/qa_engine.py:39 | with no names the detected-teams text is "Unknown", otherwise the joined listing |
| ContextSummary.QaSummarizeGameData | src/rag/qa_engine.py:16-43 | the same count on the `str` form of the context, with the "Unknown" fallback; the returned text ends with exactly the counts sentence whatever the set order |
| ContextSummary.VersionsAgree | src/rag/qa_engine.py:38-42 | with at least one name, both versions print the same sentence |

## Left out

- File and JSON input and output: `pd.read_csv`, `json.load`, `json.dump`, `mkdir`, `print` and the `__main__` blocks. The rows, the play list and the context are in-memory parameters.
- The `shotAttempts` counter of `parse_game_data` (`parse_game_data.py:112-117`). It is only printed.
- `int(row.get("PERIOD", 0))`: the period is an integer field of the row. The conversion of other cell values is not modelled.
- The `str()` of an arbitrary object. The question-answering version takes the rendered text as a parameter (`Context.Other`).
- Case mapping, `\d` and the letters of `[A-Za-z' .-]` and `[A-Z][a-z]+` are ASCII only. Python also maps non-ASCII letters in `upper()`/`lower()` and matches non-ASCII digits with `\d`. Whitespace for `strip` and `\s` is Python's `isspace` set.
- The order of `list(team_names)[:2]`: a set's iteration order is left open, so `PickNames` may take any two names.
- Python's `dict` display with two equal keys keeps the later value. This is modelled as successive map updates.
- RowParser.ParseGameData: the returned events are a `seq` value. The in-place `append` to a list is not modelled separately.
- ContextSummary.SummarizeGameData and ContextSummary.QaSummarizeGameData: the listed names are a ghost result. The sentence is specified for that listing, not for one fixed order.
- Aggregator.Play: a field is either absent or a string. A JSON `null` team, which the source would make a `None` key of `team_stats`, and a `null` or non-string event_type, on which the `in` tests at `summarize_parsed_data.py:28-53` raise, are not modelled.
- The rest of the repository is not part of this model: data download, embeddings and vector store, the language-model chain, the web API, the orchestration scripts and the UI.
