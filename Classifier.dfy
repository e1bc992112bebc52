/**
 * The per-description functions of src/utils/parse_game_data.py: the first-match keyword
 * classifier `parse_event_type`, the "(N PTS)" reader `extract_points` and the leading-name
 * reader `extract_player`.
 */
module Classifier {
  import opened Wrappers
  import opened Text

  /** The event tags `parse_event_type` can return, one per string it returns. */
  datatype Tag =
    | ThreeMade | ThreeMissed
    | ShotMade | ShotMissed
    | LayupMade | LayupMissed
    | DunkMade | DunkMissed
    | FtMade | FtMissed
    | Rebound | FoulTurnover | Foul | Steal | Turnover
    | Block | Substitution | Timeout | Other
  {
    /** A made or missed attempt of one of the five shot families. */
    predicate IsShot() {
      ThreeMade? || ThreeMissed? || ShotMade? || ShotMissed? || LayupMade? || LayupMissed?
      || DunkMade? || DunkMissed? || FtMade? || FtMissed?
    }

    /** The `_MISSED` variant of a shot family. */
    predicate IsMissed() {
      ThreeMissed? || ShotMissed? || LayupMissed? || DunkMissed? || FtMissed?
    }
  }

  /** The string the source returns for each tag (what lands in the parsed JSON). */
  function TagName(t: Tag): string {
    match t
    case ThreeMade => "3PT_MADE"
    case ThreeMissed => "3PT_MISSED"
    case ShotMade => "SHOT_MADE"
    case ShotMissed => "SHOT_MISSED"
    case LayupMade => "LAYUP_MADE"
    case LayupMissed => "LAYUP_MISSED"
    case DunkMade => "DUNK_MADE"
    case DunkMissed => "DUNK_MISSED"
    case FtMade => "FT_MADE"
    case FtMissed => "FT_MISSED"
    case Rebound => "REBOUND"
    case FoulTurnover => "FOUL+TURNOVER"
    case Foul => "FOUL"
    case Steal => "STEAL"
    case Turnover => "TURNOVER"
    case Block => "BLOCK"
    case Substitution => "SUBSTITUTION"
    case Timeout => "TIMEOUT"
    case Other => "OTHER"
  }

  // ---------------------------------------------------------------------------
  // parse_event_type
  // ---------------------------------------------------------------------------

  /** The generic jump-shot markers. */
  predicate HasShotMarker(u: string) {
    Contains(u, "SHOT") || Contains(u, "JUMPER") || Contains(u, "FADEAWAY")
  }

  /** Some keyword of the chain fires on the upper-cased text `u`. */
  predicate HasKeyword(u: string) {
    Contains(u, "3PT") || (HasShotMarker(u) && !Contains(u, "CLOCK")) || Contains(u, "LAYUP")
    || Contains(u, "DUNK") || Contains(u, "FREE THROW") || Contains(u, "REBOUND")
    || Contains(u, "FOUL") || Contains(u, "STEAL") || Contains(u, "TURNOVER")
    || Contains(u, "BLOCK") || Contains(u, "SUB") || Contains(u, "TIMEOUT")
  }

  /** The if-chain of `parse_event_type`, applied to the already upper-cased text. */
  function ClassifyUpper(u: string): Tag {
    var miss := Contains(u, "MISS");
    var clock := Contains(u, "CLOCK");
    if Contains(u, "3PT") && !miss then ThreeMade
    else if Contains(u, "3PT") && miss then ThreeMissed
    else if HasShotMarker(u) && !miss && !clock then ShotMade
    else if HasShotMarker(u) && miss && !clock then ShotMissed
    else if Contains(u, "LAYUP") && !miss then LayupMade
    else if Contains(u, "LAYUP") && miss then LayupMissed
    else if Contains(u, "DUNK") && !miss then DunkMade
    else if Contains(u, "DUNK") && miss then DunkMissed
    else if Contains(u, "FREE THROW") && !miss then FtMade
    else if Contains(u, "FREE THROW") && miss then FtMissed
    else if Contains(u, "REBOUND") then Rebound
    else if Contains(u, "FOUL") && Contains(u, "TURNOVER") then FoulTurnover
    else if Contains(u, "FOUL") then Foul
    else if Contains(u, "STEAL") then Steal
    else if Contains(u, "TURNOVER") then Turnover
    else if Contains(u, "BLOCK") then Block
    else if Contains(u, "SUB") then Substitution
    else if Contains(u, "TIMEOUT") then Timeout
    else Other
  }

  /**
   * `parse_event_type`: total, exactly one tag. A "3PT" anywhere decides the three-point
   * family; in every shot family the missed variant is chosen exactly when "MISS" occurs;
   * the jump-shot markers are ignored once "CLOCK" occurs; and the tag is OTHER exactly
   * when no keyword of the chain fires.
   */
  function ParseEventType(description: string): (t: Tag)
    ensures (t == ThreeMade || t == ThreeMissed) <==> Contains(Upper(description), "3PT")
    ensures t.IsShot() ==> (t.IsMissed() <==> Contains(Upper(description), "MISS"))
    ensures Contains(Upper(description), "CLOCK") ==> t != ShotMade && t != ShotMissed
    ensures t == Other <==> !HasKeyword(Upper(description))
  {
    ClassifyUpper(Upper(description))
  }

  /** Classification only sees the upper-cased text, so it ignores letter case. */
  lemma CaseInsensitive(description: string)
    ensures ParseEventType(Upper(description)) == ParseEventType(description)
  {
    UpperIdempotent(description);
  }

  /**
   * Once no shot family and no rebound keyword fires, the foul/steal/turnover keywords are
   * tried in the order FOUL+TURNOVER, FOUL, STEAL, TURNOVER.
   */
  lemma FoulStealTurnoverOrder(description: string)
    requires var u := Upper(description);
      !Contains(u, "3PT") && !(HasShotMarker(u) && !Contains(u, "CLOCK")) && !Contains(u, "LAYUP")
      && !Contains(u, "DUNK") && !Contains(u, "FREE THROW") && !Contains(u, "REBOUND")
    ensures var u := Upper(description); var t := ParseEventType(description);
      (Contains(u, "FOUL") && Contains(u, "TURNOVER") ==> t == FoulTurnover)
      && (Contains(u, "FOUL") && !Contains(u, "TURNOVER") ==> t == Foul)
      && (!Contains(u, "FOUL") && Contains(u, "STEAL") ==> t == Steal)
      && (!Contains(u, "FOUL") && !Contains(u, "STEAL") && Contains(u, "TURNOVER") ==> t == Turnover)
  {
  }

  // ---------------------------------------------------------------------------
  // The same classifier as an ordered rule table
  // ---------------------------------------------------------------------------

  /**
   * One rule of a priority table: it fires when some `anyOf` keyword, every `allOf` keyword
   * and no `noneOf` keyword occurs in the upper-cased text.
   */
  datatype Rule = Rule(anyOf: seq<string>, allOf: seq<string>, noneOf: seq<string>, tag: Tag)

  predicate SomeOccurs(u: string, ks: seq<string>) {
    |ks| > 0 && (Contains(u, ks[0]) || SomeOccurs(u, ks[1..]))
  }

  predicate AllOccur(u: string, ks: seq<string>) {
    |ks| == 0 || (Contains(u, ks[0]) && AllOccur(u, ks[1..]))
  }

  predicate Fires(r: Rule, u: string) {
    SomeOccurs(u, r.anyOf) && AllOccur(u, r.allOf) && !SomeOccurs(u, r.noneOf)
  }

  /** The tag of the first rule that fires, OTHER if none does. */
  function FirstMatch(rules: seq<Rule>, u: string): Tag {
    FirstMatchFrom(rules, 0, u)
  }

  /** The tag of the first rule from position `k` on that fires, OTHER if none does. */
  function FirstMatchFrom(rules: seq<Rule>, k: nat, u: string): Tag
    decreases |rules| - k
  {
    if k >= |rules| then Other
    else if Fires(rules[k], u) then rules[k].tag
    else FirstMatchFrom(rules, k + 1, u)
  }

  /** The keyword precedence of `parse_event_type`, written as data. */
  function Rules(): seq<Rule> {
    var shot := ["SHOT", "JUMPER", "FADEAWAY"];
    [ Rule(["3PT"], [], ["MISS"], ThreeMade),
      Rule(["3PT"], ["MISS"], [], ThreeMissed),
      Rule(shot, [], ["MISS", "CLOCK"], ShotMade),
      Rule(shot, ["MISS"], ["CLOCK"], ShotMissed),
      Rule(["LAYUP"], [], ["MISS"], LayupMade),
      Rule(["LAYUP"], ["MISS"], [], LayupMissed),
      Rule(["DUNK"], [], ["MISS"], DunkMade),
      Rule(["DUNK"], ["MISS"], [], DunkMissed),
      Rule(["FREE THROW"], [], ["MISS"], FtMade),
      Rule(["FREE THROW"], ["MISS"], [], FtMissed),
      Rule(["REBOUND"], [], [], Rebound),
      Rule(["FOUL"], ["TURNOVER"], [], FoulTurnover),
      Rule(["FOUL"], [], [], Foul),
      Rule(["STEAL"], [], [], Steal),
      Rule(["TURNOVER"], [], [], Turnover),
      Rule(["BLOCK"], [], [], Block),
      Rule(["SUB"], [], [], Substitution),
      Rule(["TIMEOUT"], [], [], Timeout) ]
  }

  /** The if-chain and the rule table classify every description alike. */
  lemma ClassifyByTable(description: string)
    ensures ParseEventType(description) == FirstMatch(Rules(), Upper(description))
  {
    ChainIsTable(Upper(description));
  }

  /** On upper-cased text, the if-chain is the first-match search over the rule table. */
  lemma ChainIsTable(u: string)
    ensures ClassifyUpper(u) == FirstMatch(Rules(), u)
  {
    var rs := Rules();
    HeadConditions(u);
    TableMiddle(u);
    TableTail(u);
    assert FirstMatchFrom(rs, 3, u) == if Fires(rs[3], u) then rs[3].tag else FirstMatchFrom(rs, 4, u);
    assert FirstMatchFrom(rs, 2, u) == if Fires(rs[2], u) then rs[2].tag else FirstMatchFrom(rs, 3, u);
    assert FirstMatchFrom(rs, 1, u) == if Fires(rs[1], u) then rs[1].tag else FirstMatchFrom(rs, 2, u);
    assert FirstMatchFrom(rs, 0, u) == if Fires(rs[0], u) then rs[0].tag else FirstMatchFrom(rs, 1, u);
  }

  /** From the layup rule on, the table is the tail of the if-chain. */
  lemma TableMiddle(u: string)
    ensures var miss := Contains(u, "MISS");
      FirstMatchFrom(Rules(), 4, u)
         == if Contains(u, "LAYUP") && !miss then LayupMade
            else if Contains(u, "LAYUP") && miss then LayupMissed
            else if Contains(u, "DUNK") && !miss then DunkMade
            else if Contains(u, "DUNK") && miss then DunkMissed
            else if Contains(u, "FREE THROW") && !miss then FtMade
            else if Contains(u, "FREE THROW") && miss then FtMissed
            else FirstMatchFrom(Rules(), 10, u)
  {
    var rs := Rules();
    ThreeLayupConditions(u);
    DunkFreeThrowConditions(u);
    assert FirstMatchFrom(rs, 9, u) == if Fires(rs[9], u) then rs[9].tag else FirstMatchFrom(rs, 10, u);
    assert FirstMatchFrom(rs, 8, u) == if Fires(rs[8], u) then rs[8].tag else FirstMatchFrom(rs, 9, u);
    assert FirstMatchFrom(rs, 7, u) == if Fires(rs[7], u) then rs[7].tag else FirstMatchFrom(rs, 8, u);
    assert FirstMatchFrom(rs, 6, u) == if Fires(rs[6], u) then rs[6].tag else FirstMatchFrom(rs, 7, u);
    assert FirstMatchFrom(rs, 5, u) == if Fires(rs[5], u) then rs[5].tag else FirstMatchFrom(rs, 6, u);
    assert FirstMatchFrom(rs, 4, u) == if Fires(rs[4], u) then rs[4].tag else FirstMatchFrom(rs, 5, u);
  }

  /** From the rebound rule on, the table is the tail of the if-chain. */
  lemma TableTail(u: string)
    ensures FirstMatchFrom(Rules(), 10, u)
         == if Contains(u, "REBOUND") then Rebound
            else if Contains(u, "FOUL") && Contains(u, "TURNOVER") then FoulTurnover
            else if Contains(u, "FOUL") then Foul
            else if Contains(u, "STEAL") then Steal
            else if Contains(u, "TURNOVER") then Turnover
            else if Contains(u, "BLOCK") then Block
            else if Contains(u, "SUB") then Substitution
            else if Contains(u, "TIMEOUT") then Timeout
            else Other
  {
    var rs := Rules();
    TailConditions(u);
    assert FirstMatchFrom(rs, 17, u) == if Fires(rs[17], u) then rs[17].tag else FirstMatchFrom(rs, 18, u);
    assert FirstMatchFrom(rs, 16, u) == if Fires(rs[16], u) then rs[16].tag else FirstMatchFrom(rs, 17, u);
    assert FirstMatchFrom(rs, 15, u) == if Fires(rs[15], u) then rs[15].tag else FirstMatchFrom(rs, 16, u);
    assert FirstMatchFrom(rs, 14, u) == if Fires(rs[14], u) then rs[14].tag else FirstMatchFrom(rs, 15, u);
    assert FirstMatchFrom(rs, 13, u) == if Fires(rs[13], u) then rs[13].tag else FirstMatchFrom(rs, 14, u);
    assert FirstMatchFrom(rs, 12, u) == if Fires(rs[12], u) then rs[12].tag else FirstMatchFrom(rs, 13, u);
    assert FirstMatchFrom(rs, 11, u) == if Fires(rs[11], u) then rs[11].tag else FirstMatchFrom(rs, 12, u);
    assert FirstMatchFrom(rs, 10, u) == if Fires(rs[10], u) then rs[10].tag else FirstMatchFrom(rs, 11, u);
  }

  /** When each shot-family rule of the table fires, spelled out. */
  lemma HeadConditions(u: string)
    ensures Fires(Rules()[0], u) <==> (Contains(u, "3PT") && !Contains(u, "MISS"))
    ensures Fires(Rules()[1], u) <==> (Contains(u, "3PT") && Contains(u, "MISS"))
    ensures Fires(Rules()[2], u) <==> (HasShotMarker(u) && !Contains(u, "MISS") && !Contains(u, "CLOCK"))
    ensures Fires(Rules()[3], u) <==> (HasShotMarker(u) && Contains(u, "MISS") && !Contains(u, "CLOCK"))
    ensures Fires(Rules()[4], u) <==> (Contains(u, "LAYUP") && !Contains(u, "MISS"))
    ensures Fires(Rules()[5], u) <==> (Contains(u, "LAYUP") && Contains(u, "MISS"))
    ensures Fires(Rules()[6], u) <==> (Contains(u, "DUNK") && !Contains(u, "MISS"))
    ensures Fires(Rules()[7], u) <==> (Contains(u, "DUNK") && Contains(u, "MISS"))
    ensures Fires(Rules()[8], u) <==> (Contains(u, "FREE THROW") && !Contains(u, "MISS"))
    ensures Fires(Rules()[9], u) <==> (Contains(u, "FREE THROW") && Contains(u, "MISS"))
  {
    ThreeLayupConditions(u);
    ShotConditions(u);
    DunkFreeThrowConditions(u);
  }

  /** When the three-point and layup rules fire, spelled out. */
  lemma ThreeLayupConditions(u: string)
    ensures Fires(Rules()[0], u) <==> (Contains(u, "3PT") && !Contains(u, "MISS"))
    ensures Fires(Rules()[1], u) <==> (Contains(u, "3PT") && Contains(u, "MISS"))
    ensures Fires(Rules()[4], u) <==> (Contains(u, "LAYUP") && !Contains(u, "MISS"))
    ensures Fires(Rules()[5], u) <==> (Contains(u, "LAYUP") && Contains(u, "MISS"))
  {
    assert Rules()[0] == Rule(["3PT"], [], ["MISS"], ThreeMade);
    assert Rules()[1] == Rule(["3PT"], ["MISS"], [], ThreeMissed);
    assert Rules()[4] == Rule(["LAYUP"], [], ["MISS"], LayupMade);
    assert Rules()[5] == Rule(["LAYUP"], ["MISS"], [], LayupMissed);
    KeywordLists(u);
  }

  /** When the dunk and free-throw rules fire, spelled out. */
  lemma DunkFreeThrowConditions(u: string)
    ensures Fires(Rules()[6], u) <==> (Contains(u, "DUNK") && !Contains(u, "MISS"))
    ensures Fires(Rules()[7], u) <==> (Contains(u, "DUNK") && Contains(u, "MISS"))
    ensures Fires(Rules()[8], u) <==> (Contains(u, "FREE THROW") && !Contains(u, "MISS"))
    ensures Fires(Rules()[9], u) <==> (Contains(u, "FREE THROW") && Contains(u, "MISS"))
  {
    assert Rules()[6] == Rule(["DUNK"], [], ["MISS"], DunkMade);
    assert Rules()[7] == Rule(["DUNK"], ["MISS"], [], DunkMissed);
    assert Rules()[8] == Rule(["FREE THROW"], [], ["MISS"], FtMade);
    assert Rules()[9] == Rule(["FREE THROW"], ["MISS"], [], FtMissed);
    KeywordLists(u);
  }

  /** When the jump-shot rules fire, spelled out. */
  lemma ShotConditions(u: string)
    ensures Fires(Rules()[2], u) <==> (HasShotMarker(u) && !Contains(u, "MISS") && !Contains(u, "CLOCK"))
    ensures Fires(Rules()[3], u) <==> (HasShotMarker(u) && Contains(u, "MISS") && !Contains(u, "CLOCK"))
  {
    var shot := ["SHOT", "JUMPER", "FADEAWAY"];
    assert Rules()[2] == Rule(shot, [], ["MISS", "CLOCK"], ShotMade);
    assert Rules()[3] == Rule(shot, ["MISS"], ["CLOCK"], ShotMissed);
    KeywordLists(u);
  }

  /** When each remaining rule of the table fires, spelled out. */
  lemma TailConditions(u: string)
    ensures Fires(Rules()[10], u) <==> (Contains(u, "REBOUND"))
    ensures Fires(Rules()[11], u) <==> (Contains(u, "FOUL") && Contains(u, "TURNOVER"))
    ensures Fires(Rules()[12], u) <==> (Contains(u, "FOUL"))
    ensures Fires(Rules()[13], u) <==> (Contains(u, "STEAL"))
    ensures Fires(Rules()[14], u) <==> (Contains(u, "TURNOVER"))
    ensures Fires(Rules()[15], u) <==> (Contains(u, "BLOCK"))
    ensures Fires(Rules()[16], u) <==> (Contains(u, "SUB"))
    ensures Fires(Rules()[17], u) <==> (Contains(u, "TIMEOUT"))
  {
    assert Rules()[10] == Rule(["REBOUND"], [], [], Rebound);
    assert Rules()[11] == Rule(["FOUL"], ["TURNOVER"], [], FoulTurnover);
    assert Rules()[12] == Rule(["FOUL"], [], [], Foul);
    assert Rules()[13] == Rule(["STEAL"], [], [], Steal);
    assert Rules()[14] == Rule(["TURNOVER"], [], [], Turnover);
    assert Rules()[15] == Rule(["BLOCK"], [], [], Block);
    assert Rules()[16] == Rule(["SUB"], [], [], Substitution);
    assert Rules()[17] == Rule(["TIMEOUT"], [], [], Timeout);
    KeywordLists(u);
  }

  /** The keyword lists of the table, spelled out. */
  lemma KeywordLists(u: string)
    ensures SomeOccurs(u, ["SHOT", "JUMPER", "FADEAWAY"]) == HasShotMarker(u)
    ensures SomeOccurs(u, ["MISS", "CLOCK"]) == (Contains(u, "MISS") || Contains(u, "CLOCK"))
    ensures forall k :: SomeOccurs(u, [k]) == Contains(u, k)
    ensures forall k :: AllOccur(u, [k]) == Contains(u, k)
    ensures !SomeOccurs(u, []) && AllOccur(u, [])
  {
    forall k: string ensures SomeOccurs(u, [k]) == Contains(u, k) && AllOccur(u, [k]) == Contains(u, k) {
      assert [k][1..] == [];
    }
    assert ["MISS", "CLOCK"][1..] == ["CLOCK"];
    assert ["JUMPER", "FADEAWAY"][1..] == ["FADEAWAY"];
    assert SomeOccurs(u, ["JUMPER", "FADEAWAY"]) == (Contains(u, "JUMPER") || Contains(u, "FADEAWAY"));
    assert ["SHOT", "JUMPER", "FADEAWAY"][1..] == ["JUMPER", "FADEAWAY"];
  }

  // ---------------------------------------------------------------------------
  // extract_points: the first match of \((\d+)\s*PTS?\) in the upper-cased text
  // ---------------------------------------------------------------------------

  /** The end of the longest run of digits starting at `i`. */
  function DigitRunEnd(s: string, i: nat): (j: nat)
    requires i <= |s|
    ensures i <= j <= |s|
    ensures forall k :: i <= k < j ==> IsDigit(s[k])
    ensures j == |s| || !IsDigit(s[j])
    decreases |s| - i
  {
    if i < |s| && IsDigit(s[i]) then DigitRunEnd(s, i + 1) else i
  }

  /** The end of the longest run of whitespace starting at `i`. */
  function SpaceRunEnd(s: string, i: nat): (j: nat)
    requires i <= |s|
    ensures i <= j <= |s|
    ensures forall k :: i <= k < j ==> IsSpace(s[k])
    ensures j == |s| || !IsSpace(s[j])
    decreases |s| - i
  {
    if i < |s| && IsSpace(s[i]) then SpaceRunEnd(s, i + 1) else i
  }

  /**
   * The annotation matched at position `i`, if the pattern matches there: "(", one or more
   * digits, optional whitespace, "PT", an optional "S", ")". Both runs are taken whole, since
   * a shorter digit or space run would leave a digit or a space where "P" is needed.
   */
  function AnnotationAt(s: string, i: nat): Option<nat>
    requires i <= |s|
  {
    if i < |s| && s[i] == '(' then
      var j := DigitRunEnd(s, i + 1);
      var k := SpaceRunEnd(s, j);
      if j > i + 1 && k + 3 <= |s| && s[k] == 'P' && s[k + 1] == 'T'
         && (s[k + 2] == ')' || (s[k + 2] == 'S' && k + 4 <= |s| && s[k + 3] == ')'))
      then Some(ParseDigits(s[i + 1..j]))
      else None
    else None
  }

  /** The leftmost position from `i` on where the pattern matches, or `|s|` when there is none. */
  function SearchPosition(s: string, i: nat): (p: nat)
    requires i <= |s|
    ensures i <= p <= |s|
    ensures p < |s| ==> AnnotationAt(s, p).Some?
    decreases |s| - i
  {
    if i == |s| || AnnotationAt(s, i).Some? then i else SearchPosition(s, i + 1)
  }

  /** `re.search` from position `i`: the annotation at the leftmost position that has one. */
  function SearchAnnotation(s: string, i: nat): Option<nat>
    requires i <= |s|
  {
    AnnotationAt(s, SearchPosition(s, i))
  }

  /** No position before the one the search stops at has an annotation. */
  lemma {:induction false} SearchLeftmost(s: string, i: nat)
    requires i <= |s|
    ensures forall k :: i <= k < SearchPosition(s, i) ==> AnnotationAt(s, k).None?
    decreases |s| - i
  {
    if i < |s| && AnnotationAt(s, i).None? {
      SearchLeftmost(s, i + 1);
    }
  }

  /** When the search finds an annotation, it is the one at the leftmost position from `i` on that has one. */
  lemma SearchFound(s: string, i: nat)
    requires i <= |s|
    requires SearchAnnotation(s, i).Some?
    ensures var p := SearchPosition(s, i);
      p < |s| && s[p] == '(' && AnnotationAt(s, p) == SearchAnnotation(s, i)
      && forall k :: i <= k < p ==> AnnotationAt(s, k).None?
  {
    SearchLeftmost(s, i);
  }

  /** When the search finds nothing, no position from `i` on has an annotation. */
  lemma SearchMissing(s: string, i: nat)
    requires i <= |s|
    requires SearchAnnotation(s, i).None?
    ensures forall k :: i <= k <= |s| ==> AnnotationAt(s, k).None?
  {
    SearchLeftmost(s, i);
  }

  /** `extract_points`: the number in the first "(N PT)"/"(N PTS)" annotation, else 0. */
  function ExtractPoints(description: string): (points: nat)
    ensures points != 0 ==> exists j :: 0 <= j < |description| && AnnotationAt(Upper(description), j) == Some(points)
  {
    var r := SearchAnnotation(Upper(description), 0);
    if r.Some? then SearchFound(Upper(description), 0); r.value else 0
  }

  /** Text without any "(" carries no annotation, so it scores 0. */
  lemma NoParenthesisNoPoints(description: string)
    requires '(' !in description
    ensures ExtractPoints(description) == 0
  {
    var u := Upper(description);
    forall j | 0 <= j < |u| ensures u[j] != '(' {
      assert description[j] in description;
    }
  }

  /** Search past positions that hold no "(" finds what it finds from the first one that does. */
  lemma {:induction false} SearchSkips(s: string, i: nat, j: nat)
    requires i <= j <= |s|
    requires forall k :: i <= k < j ==> s[k] != '('
    ensures SearchPosition(s, i) == SearchPosition(s, j)
    ensures SearchAnnotation(s, i) == SearchAnnotation(s, j)
    decreases j - i
  {
    if i < j {
      NoParenthesisHere(s, i);
      SearchSkips(s, i + 1, j);
    }
  }

  /** The pattern cannot match where there is no "(". */
  lemma NoParenthesisHere(s: string, i: nat)
    requires i < |s| && s[i] != '('
    ensures AnnotationAt(s, i).None?
  {
  }

  /**
   * Writing `n` as an annotation after text that holds no "(" and reading it back gives `n`,
   * whatever follows.
   */
  lemma AnnotationRoundTrip(prefix: string, n: nat, suffix: string)
    requires '(' !in prefix
    ensures ExtractPoints(prefix + "(" + NatToString(n) + " PTS)" + suffix) == n
  {
    var digits := NatToString(n);
    var u := Upper(prefix + "(" + digits + " PTS)" + suffix);
    AnnotationPlaced(prefix, n, suffix);
    FirstAnnotation(u, |prefix|, digits);
    ParseNatToString(n);
  }

  /** An annotation with nothing but "("-free text before it is the one the search finds. */
  lemma FirstAnnotation(u: string, p: nat, digits: string)
    requires |digits| > 0 && AllDigits(digits)
    requires p + |digits| + 6 <= |u|
    requires forall k :: 0 <= k < p ==> u[k] != '('
    requires u[p..p + |digits| + 6] == "(" + digits + " PTS)"
    ensures SearchAnnotation(u, 0) == Some(ParseDigits(digits))
  {
    SearchSkips(u, 0, p);
    AnnotationLayout(u, p, digits);
    AnnotationFound(u, p, digits);
  }

  /** After upper-casing, the prefix still holds no "(" and the annotation sits right after it. */
  lemma AnnotationPlaced(prefix: string, n: nat, suffix: string)
    requires '(' !in prefix
    ensures var digits := NatToString(n);
      var u := Upper(prefix + "(" + digits + " PTS)" + suffix);
      && (forall k :: 0 <= k < |prefix| ==> u[k] != '(')
      && u[|prefix|..|prefix| + |digits| + 6] == "(" + digits + " PTS)"
  {
    var digits := NatToString(n);
    var ann := "(" + digits + " PTS)";
    var u := Upper(prefix + ann + suffix);
    var up := Upper(prefix);
    UpperOfAnnotation(prefix, digits, suffix);
    assert u == up + ann + Upper(suffix);
    forall k | 0 <= k < |prefix| ensures u[k] != '(' {
      assert u[k] == up[k] == UpperChar(prefix[k]);
      assert prefix[k] in prefix;
    }
    assert u[|prefix|..|prefix| + |digits| + 6] == ann;
  }

  /** Upper-casing leaves an annotation as it is and works on its two sides separately. */
  lemma UpperOfAnnotation(prefix: string, digits: string, suffix: string)
    requires AllDigits(digits)
    ensures Upper(prefix + ("(" + digits + " PTS)") + suffix)
         == Upper(prefix) + ("(" + digits + " PTS)") + Upper(suffix)
  {
    var ann := "(" + digits + " PTS)";
    UpperAppend(prefix + ann, suffix);
    UpperAppend(prefix, ann);
    UpperFixed(ann);
  }

  /** An annotation "(digits PTS)" at position `p` is matched there with the value of its digits. */
  lemma AnnotationFound(u: string, p: nat, digits: string)
    requires |digits| > 0 && AllDigits(digits)
    requires p + |digits| + 6 <= |u|
    requires var j := p + 1 + |digits|;
      u[p] == '(' && u[p + 1..j] == digits && u[j] == ' ' && u[j + 1] == 'P'
      && u[j + 2] == 'T' && u[j + 3] == 'S' && u[j + 4] == ')'
    ensures AnnotationAt(u, p) == Some(ParseDigits(digits))
  {
    AnnotationSpelled(u, p, p + 1 + |digits|);
  }

  /** The pattern matches at `p` when "(", a digit run, one space and "PTS)" follow each other there. */
  lemma AnnotationSpelled(u: string, p: nat, j: nat)
    requires p + 1 < j && j + 5 <= |u| && AllDigits(u[p + 1..j])
    requires u[p] == '(' && u[j] == ' ' && u[j + 1] == 'P'
    requires u[j + 2] == 'T' && u[j + 3] == 'S' && u[j + 4] == ')'
    ensures AnnotationAt(u, p) == Some(ParseDigits(u[p + 1..j]))
  {
    DigitRunExact(u, p + 1, j);
    SpaceRunOne(u, j);
    AnnotationMatches(u, p, j);
  }

  /** A single space followed by "P" is a whitespace run of length one. */
  lemma SpaceRunOne(u: string, j: nat)
    requires j + 1 < |u| && u[j] == ' ' && u[j + 1] == 'P'
    ensures SpaceRunEnd(u, j) == j + 1
  {
  }

  /** The characters of "(digits PTS)" laid out at position `p`. */
  lemma AnnotationLayout(u: string, p: nat, digits: string)
    requires p + |digits| + 6 <= |u|
    requires u[p..p + |digits| + 6] == "(" + digits + " PTS)"
    ensures var j := p + 1 + |digits|;
      u[p] == '(' && u[p + 1..j] == digits && u[j] == ' ' && u[j + 1] == 'P'
      && u[j + 2] == 'T' && u[j + 3] == 'S' && u[j + 4] == ')'
  {
    var ann := "(" + digits + " PTS)";
    var j := p + 1 + |digits|;
    assert forall i :: 0 <= i < |ann| ==> u[p + i] == ann[i];
    assert u[p + 1..j] == ann[1..1 + |digits|];
  }

  /** A run of digits that stops at a non-digit is the longest one. */
  lemma DigitRunExact(u: string, i: nat, j: nat)
    requires i <= j < |u| && AllDigits(u[i..j]) && !IsDigit(u[j])
    ensures DigitRunEnd(u, i) == j
  {
  }

  /** The pattern matches at `p` once "(", the digit run, one space and "PTS)" are in place. */
  lemma AnnotationMatches(u: string, p: nat, j: nat)
    requires p + 1 < j && j + 5 <= |u|
    requires u[p] == '(' && DigitRunEnd(u, p + 1) == j && SpaceRunEnd(u, j) == j + 1
    requires u[j + 1] == 'P' && u[j + 2] == 'T' && u[j + 3] == 'S' && u[j + 4] == ')'
    ensures AnnotationAt(u, p) == Some(ParseDigits(u[p + 1..j]))
  {
  }

  // ---------------------------------------------------------------------------
  // extract_player: re.match(r"([A-Za-z' .-]+)", description), stripped
  // ---------------------------------------------------------------------------

  predicate IsNameChar(c: char) {
    IsUpperLetter(c) || IsLowerLetter(c) || c == '\'' || c == ' ' || c == '.' || c == '-'
  }

  /** The length of the longest leading run of name characters. */
  function NameRunEnd(s: string, i: nat): (j: nat)
    requires i <= |s|
    ensures i <= j <= |s|
    ensures forall k :: i <= k < j ==> IsNameChar(s[k])
    ensures j == |s| || !IsNameChar(s[j])
    decreases |s| - i
  {
    if i < |s| && IsNameChar(s[i]) then NameRunEnd(s, i + 1) else i
  }

  /**
   * `extract_player`: "Unknown" when the text is empty or starts with a character outside
   * letters, apostrophe, space, period and hyphen; otherwise the stripped leading run of
   * those characters (which is empty when the run is all spaces).
   */
  function ExtractPlayer(description: string): (name: string)
    ensures description == [] || !IsNameChar(description[0]) ==> name == "Unknown"
    ensures description != [] && IsNameChar(description[0]) ==>
      exists j :: 0 < j <= |description| && (forall k :: 0 <= k < j ==> IsNameChar(description[k]))
                  && (j == |description| || !IsNameChar(description[j]))
                  && name == Strip(description[..j])
  {
    var j := NameRunEnd(description, 0);
    if j == 0 then "Unknown" else Strip(description[..j])
  }

  /** A name read from text that starts with a name character is made of name characters,
   *  carries no surrounding spaces and is no longer than the text. */
  lemma ExtractPlayerShape(description: string)
    requires description != [] && IsNameChar(description[0])
    ensures var name := ExtractPlayer(description);
      (forall i :: 0 <= i < |name| ==> IsNameChar(name[i]))
      && (name == [] || (name[0] != ' ' && name[|name| - 1] != ' '))
      && |name| <= |description|
  {
    var j := NameRunEnd(description, 0);
    var run := description[..j];
    assert forall k :: 0 <= k < |run| ==> IsNameChar(run[k]);
    StripOffset(run);
    StripKeepsNameChars(run);
  }

  /** Stripping a run of name characters leaves name characters. */
  lemma StripKeepsNameChars(run: string)
    requires forall k :: 0 <= k < |run| ==> IsNameChar(run[k])
    ensures forall i :: 0 <= i < |Strip(run)| ==> IsNameChar(Strip(run)[i])
  {
    StripOffset(run);
    SliceKeepsNameChars(run, Strip(run), |run| - |TrimStart(run)|);
  }

  /** A slice of a run of name characters holds name characters only. */
  lemma SliceKeepsNameChars(run: string, slice: string, off: nat)
    requires off + |slice| <= |run|
    requires forall i :: 0 <= i < |slice| ==> slice[i] == run[off + i]
    requires forall k :: 0 <= k < |run| ==> IsNameChar(run[k])
    ensures forall i :: 0 <= i < |slice| ==> IsNameChar(slice[i])
  {
    forall i | 0 <= i < |slice| ensures IsNameChar(slice[i]) {
      assert slice[i] == run[off + i];
    }
  }
}
