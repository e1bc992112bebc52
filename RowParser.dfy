/**
 * The row loop of `parse_game_data` (src/utils/parse_game_data.py): every play-by-play row
 * with text on either side becomes one event; the team code comes from TEAM_TRICODE when the
 * row has one, else from the first code seen on the same side, else "UNK".
 */
module RowParser {
  import opened Wrappers
  import opened Text
  import opened Classifier

  /** One cell of the play-by-play table: missing, pandas' NaN, or a string. */
  datatype Cell = Absent | NaN | Str(s: string)

  /** The columns of a row that the loop reads. */
  datatype Row = Row(
    homeDescription: Cell,
    visitorDescription: Cell,
    teamTricode: Cell,
    period: int,
    clock: Cell,
    playerName: Cell,
    player1Name: Cell)

  /** One parsed event, with the keys the source writes. */
  datatype Event = Event(
    period: int,
    time: string,
    hoa: string,
    team: string,
    player: string,
    eventType: Tag,
    points: nat,
    description: string,
    homeDescription: string,
    awayDescription: string)

  // ---------------------------------------------------------------------------
  // Cell normalisation
  // ---------------------------------------------------------------------------

  /** Python truthiness of a cell value: NaN is truthy, the empty string is not. */
  predicate Truthy(c: Cell) {
    c.NaN? || (c.Str? && c.s != "")
  }

  /** `str(c)`. */
  function Render(c: Cell): string {
    match c
    case Absent => "None"
    case NaN => "nan"
    case Str(s) => s
  }

  /** `str(c or "")`. */
  function OrEmpty(c: Cell): string {
    if Truthy(c) then Render(c) else ""
  }

  /** `s.lower() == "nan"`. */
  predicate ReadsNan(s: string) {
    |s| == 3 && LowerChar(s[0]) == 'n' && LowerChar(s[1]) == 'a' && LowerChar(s[2]) == 'n'
  }

  lemma ReadsNanLower(s: string)
    ensures ReadsNan(s) <==> Lower(s) == "nan"
  {
    if ReadsNan(s) {
      assert Lower(s) == "nan";
    }
    if Lower(s) == "nan" {
      assert Lower(s)[0] == 'n' && Lower(s)[1] == 'a' && Lower(s)[2] == 'n';
    }
  }

  /**
   * A description cell: `"" if str(v).lower() == "nan" else str(v or "").strip()`. The test
   * looks at the unstripped text, so " nan " survives as "nan".
   */
  function DescriptionText(c: Cell): (r: string)
    ensures IsStripped(r)
    ensures (c.Absent? || c.NaN?) ==> r == ""
    ensures c.Str? && !ReadsNan(c.s) ==> r == Strip(c.s)
    ensures c.Str? && ReadsNan(c.s) ==> r == ""
  {
    if ReadsNan(Render(c)) then "" else Strip(OrEmpty(c))
  }

  /**
   * The TEAM_TRICODE cell: `str(v or "").strip()`, then "" when that reads "nan" in any case.
   * Here the test looks at the stripped text.
   */
  function CodeText(c: Cell): (r: string)
    ensures IsStripped(r)
    ensures !ReadsNan(r)
    ensures (c.Absent? || c.NaN?) ==> r == ""
    ensures c.Str? ==> r == (if ReadsNan(Strip(c.s)) then "" else Strip(c.s))
  {
    // A missing cell gives "", and a NaN cell gives "nan", which the test clears.
    match c
    case Str(s) => var t := Strip(s); if ReadsNan(t) then "" else t
    case _ => ""
  }

  /** A row after the normalisation at the top of the loop body. */
  datatype Cleaned = Cleaned(
    homeDesc: string,
    awayDesc: string,
    rawTeam: string,
    period: int,
    time: string,
    player: string)

  /**
   * The per-row normalisation: both description texts, the TEAM_TRICODE text, the clock
   * `str(v or "").strip()` and the player `str(PLAYER_NAME or PLAYER1_NAME or "").strip()`.
   */
  function Clean(r: Row): (c: Cleaned)
    ensures IsStripped(c.homeDesc) && IsStripped(c.awayDesc) && IsStripped(c.rawTeam)
  {
    Cleaned(
      homeDesc := DescriptionText(r.homeDescription),
      awayDesc := DescriptionText(r.visitorDescription),
      rawTeam := CodeText(r.teamTricode),
      period := r.period,
      time := Strip(OrEmpty(r.clock)),
      player := Strip(if Truthy(r.playerName) then Render(r.playerName) else OrEmpty(r.player1Name)))
  }

  /** Every row normalised, in order. */
  function CleanAll(rows: seq<Row>): (cs: seq<Cleaned>)
    ensures |cs| == |rows|
  {
    if rows == [] then [] else CleanAll(rows[..|rows| - 1]) + [Clean(rows[|rows| - 1])]
  }

  /** `home_desc or away_desc`. */
  function Desc(c: Cleaned): string {
    if c.homeDesc != "" then c.homeDesc else c.awayDesc
  }

  /** `primary_is_home`: the home side has text. */
  predicate IsHome(c: Cleaned) {
    c.homeDesc != ""
  }

  // ---------------------------------------------------------------------------
  // Which rows become events
  // ---------------------------------------------------------------------------

  /** The row has text on some side, so it produces an event. */
  predicate HasText(r: Cleaned) {
    r.homeDesc != "" || r.awayDesc != ""
  }

  /** The rows that produce an event, in order: exactly those with text on some side. */
  function Kept(rows: seq<Cleaned>): (kept: seq<Cleaned>)
    ensures |kept| <= |rows|
    ensures forall i :: 0 <= i < |kept| ==> HasText(kept[i])
  {
    if rows == [] then []
    else if HasText(rows[|rows| - 1]) then Kept(rows[..|rows| - 1]) + [rows[|rows| - 1]]
    else Kept(rows[..|rows| - 1])
  }

  /** One more row is kept exactly when it has text. */
  lemma KeptSnoc(rows: seq<Cleaned>, r: Cleaned)
    ensures Kept(rows + [r]) == Kept(rows) + (if HasText(r) then [r] else [])
  {
    assert (rows + [r])[..|rows|] == rows;
  }

  /** When every row has text, every row is kept; when none has, none is. */
  lemma {:induction false} KeptAllOrNone(rows: seq<Cleaned>)
    ensures (forall i :: 0 <= i < |rows| ==> HasText(rows[i])) ==> Kept(rows) == rows
    ensures (forall i :: 0 <= i < |rows| ==> !HasText(rows[i])) ==> Kept(rows) == []
    decreases |rows|
  {
    if rows != [] {
      var init := rows[..|rows| - 1];
      KeptAllOrNone(init);
      assert rows == init + [rows[|rows| - 1]];
    }
  }

  /** Keeping rows works block by block: the kept rows of `a + b` are those of `a`, then of `b`. */
  lemma {:induction false} KeptAppend(a: seq<Cleaned>, b: seq<Cleaned>)
    ensures Kept(a + b) == Kept(a) + Kept(b)
    decreases |b|
  {
    if b == [] {
      assert a + b == a;
    } else {
      var b' := b[..|b| - 1];
      assert (a + b)[..|a + b| - 1] == a + b';
      KeptAppend(a, b');
    }
  }

  // ---------------------------------------------------------------------------
  // Team resolution
  // ---------------------------------------------------------------------------

  predicate HasCodeOnSide(r: Cleaned, home: bool) {
    IsHome(r) == home && r.rawTeam != ""
  }

  /** The first non-empty team code among `rows` on the given side, if any. */
  function FirstSeen(rows: seq<Cleaned>, home: bool): (r: Option<string>)
    ensures r.Some? ==> r.value != ""
  {
    if rows == [] then None
    else if HasCodeOnSide(rows[0], home) then Some(rows[0].rawTeam)
    else FirstSeen(rows[1..], home)
  }

  /**
   * The remembered code of a side is none exactly when no row of that side carries a code,
   * and otherwise the code of the earliest such row.
   */
  lemma {:induction false} FirstSeenMeaning(rows: seq<Cleaned>, home: bool)
    ensures var r := FirstSeen(rows, home);
      && (r.None? <==> forall k :: 0 <= k < |rows| ==> !HasCodeOnSide(rows[k], home))
      && (r.Some? ==> exists k :: (0 <= k < |rows| && HasCodeOnSide(rows[k], home)
           && rows[k].rawTeam == r.value && forall k' :: 0 <= k' < k ==> !HasCodeOnSide(rows[k'], home)))
    decreases |rows|
  {
    if rows != [] && !HasCodeOnSide(rows[0], home) {
      var r := FirstSeen(rows[1..], home);
      FirstSeenMeaning(rows[1..], home);
      if r.Some? {
        var k :| 0 <= k < |rows[1..]| && HasCodeOnSide(rows[1..][k], home)
          && rows[1..][k].rawTeam == r.value && forall k' :: 0 <= k' < k ==> !HasCodeOnSide(rows[1..][k'], home);
        assert HasCodeOnSide(rows[k + 1], home);
        assert forall k' :: 0 <= k' < k + 1 ==> !HasCodeOnSide(rows[k'], home) by {
          forall k' | 0 <= k' < k + 1 ensures !HasCodeOnSide(rows[k'], home) {
            if k' > 0 { assert rows[k'] == rows[1..][k' - 1]; }
          }
        }
      } else {
        forall k | 0 <= k < |rows| ensures !HasCodeOnSide(rows[k], home) {
          if k > 0 { assert rows[k] == rows[1..][k - 1]; }
        }
      }
    } else if rows != [] {
      assert HasCodeOnSide(rows[0], home);
    }
  }

  /** A side's remembered code is set once: more rows never change it. */
  lemma {:induction false} FirstSeenStable(a: seq<Cleaned>, b: seq<Cleaned>, home: bool)
    requires FirstSeen(a, home).Some?
    ensures FirstSeen(a + b, home) == FirstSeen(a, home)
    decreases |a|
  {
    if !HasCodeOnSide(a[0], home) {
      assert (a + b)[1..] == a[1..] + b;
      FirstSeenStable(a[1..], b, home);
    }
  }

  /** What the loop's remembered code becomes after one more row. */
  lemma {:induction false} FirstSeenSnoc(a: seq<Cleaned>, r: Cleaned, home: bool)
    ensures FirstSeen(a + [r], home)
         == if FirstSeen(a, home).Some? then FirstSeen(a, home)
            else if HasCodeOnSide(r, home) then Some(r.rawTeam) else None
    decreases |a|
  {
    if a == [] {
      assert a + [r] == [r];
    } else if !HasCodeOnSide(a[0], home) {
      assert (a + [r])[1..] == a[1..] + [r];
      FirstSeenSnoc(a[1..], r, home);
    }
  }

  /** The team of a row: its own code, else the first code seen on its side before it, else "UNK". */
  function ResolveTeam(before: seq<Cleaned>, r: Cleaned): (team: string)
    ensures team != ""
    ensures r.rawTeam != "" ==> team == r.rawTeam
    ensures r.rawTeam == "" && FirstSeen(before, IsHome(r)).Some? ==> team == FirstSeen(before, IsHome(r)).value
    ensures r.rawTeam == "" && (forall k :: 0 <= k < |before| ==> !HasCodeOnSide(before[k], IsHome(r))) ==> team == "UNK"
  {
    FirstSeenMeaning(before, IsHome(r));
    if r.rawTeam != "" then r.rawTeam else FirstSeen(before, IsHome(r)).GetOr("UNK")
  }

  /** The fields of every parsed event agree with one another. */
  predicate Consistent(e: Event, homeTeam: string, awayTeam: string) {
    && e.description != ""
    && e.description == (if e.homeDescription != "" then e.homeDescription else e.awayDescription)
    && e.hoa == (if e.homeDescription != "" then homeTeam else awayTeam)
    && e.team != ""
    && e.eventType == ParseEventType(e.description)
    && e.points == ExtractPoints(e.description)
  }

  /** The event for a row `r`, given the kept rows `before` it. */
  function EventOf(before: seq<Cleaned>, r: Cleaned, homeTeam: string, awayTeam: string): Event {
    Event(
      period := r.period,
      time := r.time,
      hoa := if IsHome(r) then homeTeam else awayTeam,
      team := ResolveTeam(before, r),
      player := r.player,
      eventType := ParseEventType(Desc(r)),
      points := ExtractPoints(Desc(r)),
      description := Strip(Desc(r)),
      homeDescription := r.homeDesc,
      awayDescription := r.awayDesc)
  }

  /** The event of a row with (stripped) text has consistent fields. */
  lemma EventConsistent(before: seq<Cleaned>, r: Cleaned, homeTeam: string, awayTeam: string)
    requires HasText(r) && IsStripped(r.homeDesc) && IsStripped(r.awayDesc)
    ensures Consistent(EventOf(before, r, homeTeam, awayTeam), homeTeam, awayTeam)
  {
    StripStripped(Desc(r));
  }

  /**
   * The results of running `build` over `kept` in order, each call given the rows before
   * the one it builds from.
   */
  function Scan<T>(kept: seq<Cleaned>, build: (seq<Cleaned>, Cleaned) -> T): (out: seq<T>)
    ensures |out| == |kept|
  {
    if kept == [] then []
    else
      var init := kept[..|kept| - 1];
      Scan(init, build) + [build(init, kept[|kept| - 1])]
  }

  /** The j-th result is built from the j-th row and the rows before it. */
  lemma {:induction false} ScanAt<T>(kept: seq<Cleaned>, build: (seq<Cleaned>, Cleaned) -> T, j: nat)
    requires j < |kept|
    ensures Scan(kept, build)[j] == build(kept[..j], kept[j])
    decreases |kept|
  {
    var init := kept[..|kept| - 1];
    if j < |init| {
      ScanAt(init, build, j);
      assert init[..j] == kept[..j];
    }
  }

  lemma ScanSnoc<T>(kept: seq<Cleaned>, r: Cleaned, build: (seq<Cleaned>, Cleaned) -> T)
    ensures Scan(kept + [r], build) == Scan(kept, build) + [build(kept, r)]
  {
    assert (kept + [r])[..|kept|] == kept;
  }

  /** The events of the kept rows, each built from the row and the kept rows before it. */
  function Events(kept: seq<Cleaned>, homeTeam: string, awayTeam: string): seq<Event> {
    Scan(kept, (before, r) => EventOf(before, r, homeTeam, awayTeam))
  }

  /** The j-th event comes from the j-th kept row and the kept rows before it. */
  lemma EventsAt(kept: seq<Cleaned>, homeTeam: string, awayTeam: string, j: nat)
    requires j < |kept|
    ensures |Events(kept, homeTeam, awayTeam)| == |kept|
    ensures Events(kept, homeTeam, awayTeam)[j] == EventOf(kept[..j], kept[j], homeTeam, awayTeam)
  {
    ScanAt(kept, (before, r) => EventOf(before, r, homeTeam, awayTeam), j);
  }

  lemma EventsSnoc(kept: seq<Cleaned>, r: Cleaned, homeTeam: string, awayTeam: string)
    ensures Events(kept + [r], homeTeam, awayTeam)
         == Events(kept, homeTeam, awayTeam) + [EventOf(kept, r, homeTeam, awayTeam)]
  {
    ScanSnoc(kept, r, (before, r) => EventOf(before, r, homeTeam, awayTeam));
  }

  /** Every normalised row has stripped description texts. */
  lemma {:induction false} CleanAllStripped(rows: seq<Row>, k: nat)
    requires k < |rows|
    ensures IsStripped(CleanAll(rows)[k].homeDesc) && IsStripped(CleanAll(rows)[k].awayDesc)
    decreases |rows|
  {
    if k < |rows| - 1 {
      CleanAllStripped(rows[..|rows| - 1], k);
    }
  }

  /** Every kept row is one of the rows. */
  lemma {:induction false} KeptFrom(rows: seq<Cleaned>, j: nat)
    requires j < |Kept(rows)|
    ensures exists k :: 0 <= k < |rows| && rows[k] == Kept(rows)[j]
    decreases |rows|
  {
    var init := rows[..|rows| - 1];
    if j < |Kept(init)| {
      KeptFrom(init, j);
      var k :| 0 <= k < |init| && init[k] == Kept(init)[j];
      assert rows[k] == init[k];
    } else {
      assert rows[|rows| - 1] == Kept(rows)[j];
    }
  }

  /** Normalising one more row appends its normalised form. */
  lemma CleanAllStep(rows: seq<Row>, i: nat)
    requires i < |rows|
    ensures CleanAll(rows[..i + 1]) == CleanAll(rows[..i]) + [Clean(rows[i])]
  {
    assert rows[..i + 1][..i] == rows[..i];
  }

  /**
   * Every event `parse_game_data` returns has a non-empty description taken from the side
   * that has text, a non-empty team, and the type and points read from that description.
   */
  lemma EventsConsistent(rows: seq<Row>, homeTeam: string, awayTeam: string)
    ensures var es := Events(Kept(CleanAll(rows)), homeTeam, awayTeam);
      forall j :: 0 <= j < |es| ==> Consistent(es[j], homeTeam, awayTeam)
  {
    var kept := Kept(CleanAll(rows));
    forall j | 0 <= j < |kept|
      ensures Consistent(Events(kept, homeTeam, awayTeam)[j], homeTeam, awayTeam)
    {
      EventsAt(kept, homeTeam, awayTeam, j);
      KeptFrom(CleanAll(rows), j);
      var k :| 0 <= k < |CleanAll(rows)| && CleanAll(rows)[k] == kept[j];
      CleanAllStripped(rows, k);
      EventConsistent(kept[..j], kept[j], homeTeam, awayTeam);
    }
  }

  // ---------------------------------------------------------------------------
  // The loop
  // ---------------------------------------------------------------------------

  /**
   * `parse_game_data` without the CSV read: one event per row with text, in row order, the
   * j-th built from the j-th such row and the team codes seen on the kept rows before it.
   */
  method ParseGameData(rows: seq<Row>, homeTeam: string, awayTeam: string) returns (parsed: seq<Event>)
    ensures parsed == Events(Kept(CleanAll(rows)), homeTeam, awayTeam)
  {
    parsed := [];
    var homeTeamName: Option<string> := None;
    var awayTeamName: Option<string> := None;
    ghost var kept: seq<Cleaned> := [];
    var i := 0;
    while i < |rows|
      invariant 0 <= i <= |rows|
      invariant kept == Kept(CleanAll(rows[..i]))
      invariant parsed == Events(kept, homeTeam, awayTeam)
      invariant homeTeamName == FirstSeen(kept, true)
      invariant awayTeamName == FirstSeen(kept, false)
    {
      var row := Clean(rows[i]);
      CleanAllStep(rows, i);
      KeptSnoc(CleanAll(rows[..i]), row);
      var homeDesc := row.homeDesc;
      var awayDesc := row.awayDesc;
      var desc := if homeDesc != "" then homeDesc else awayDesc;
      if desc != "" {
        var primaryIsHome := homeDesc != "";
        var primaryHoA := if primaryIsHome then homeTeam else awayTeam;
        var rawTeam := row.rawTeam;
        FirstSeenSnoc(kept, row, true);
        FirstSeenSnoc(kept, row, false);
        if primaryIsHome && homeTeamName.None? && rawTeam != "" {
          homeTeamName := Some(rawTeam);
        }
        if !primaryIsHome && awayTeamName.None? && rawTeam != "" {
          awayTeamName := Some(rawTeam);
        }
        if rawTeam == "" {
          rawTeam := (if primaryIsHome then homeTeamName else awayTeamName).GetOr("UNK");
        }
        var event := Event(
          period := row.period,
          time := row.time,
          hoa := primaryHoA,
          team := rawTeam,
          player := row.player,
          eventType := ParseEventType(desc),
          points := ExtractPoints(desc),
          description := Strip(desc),
          homeDescription := homeDesc,
          awayDescription := awayDesc);
        EventsSnoc(kept, row, homeTeam, awayTeam);
        parsed := parsed + [event];
        kept := kept + [row];
      }
      i := i + 1;
    }
    assert rows[..|rows|] == rows;
  }
}
