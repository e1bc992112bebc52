/**
 * `summarize_game_data` of src/utils/preprocess.py and its near-copy in src/rag/qa_engine.py:
 * the retrieved play text is cut into stripped, non-blank lines; one pass counts the home and
 * the away three-pointer lines by substring tests and gathers the capitalised words; a short
 * sentence reports up to two of those words and the counts.
 */
module ContextSummary {
  import opened Text

  // ---------------------------------------------------------------------------
  // Lines
  // ---------------------------------------------------------------------------

  /** The stripped pieces that are not blank, in order. */
  function NonBlank(pieces: seq<string>): (r: seq<string>)
    ensures |r| <= |pieces|
    ensures forall k :: 0 <= k < |r| ==> r[k] != [] && IsStripped(r[k])
    ensures forall p :: p in pieces && Strip(p) != [] ==> Strip(p) in r
  {
    if pieces == [] then []
    else
      var init := NonBlank(pieces[..|pieces| - 1]);
      var last := pieces[|pieces| - 1];
      assert forall p :: p in pieces ==> p in pieces[..|pieces| - 1] || p == last;
      if Strip(last) != [] then init + [Strip(last)] else init
  }

  /**
   * One more piece adds its stripped line at the end when it is not blank and nothing
   * otherwise: the lines keep the order of the pieces.
   */
  lemma NonBlankSnoc(pieces: seq<string>, x: string)
    ensures NonBlank(pieces + [x]) == NonBlank(pieces) + (if Strip(x) != [] then [Strip(x)] else [])
  {
    assert (pieces + [x])[..|pieces|] == pieces;
  }

  /** `[l.strip() for l in raw.split("\n") if l.strip()]`. */
  function Lines(raw: string): seq<string> {
    NonBlank(Split(raw, '\n'))
  }

  /** Every line of the text comes from one of its pieces, and no blank piece leaves a line. */
  lemma {:induction false} NonBlankFrom(pieces: seq<string>)
    ensures forall l :: l in NonBlank(pieces) ==> exists p :: p in pieces && Strip(p) == l
    decreases |pieces|
  {
    if pieces != [] {
      var init := pieces[..|pieces| - 1];
      NonBlankFrom(init);
      forall l | l in NonBlank(pieces)
        ensures exists p :: p in pieces && Strip(p) == l
      {
        if l in NonBlank(init) {
          var p :| p in init && Strip(p) == l;
          assert p in pieces;
        } else {
          assert Strip(pieces[|pieces| - 1]) == l;
        }
      }
    }
  }

  // ---------------------------------------------------------------------------
  // Three-pointer lines
  // ---------------------------------------------------------------------------

  /** The home test as written: "HOMEDESCRIPTION" or "HOME". */
  predicate HomeMark(line: string) {
    Contains(line, "HOMEDESCRIPTION") || Contains(line, "HOME")
  }

  /** The away test as written: "VISITORDESCRIPTION" or "AWAY". */
  predicate AwayMark(line: string) {
    Contains(line, "VISITORDESCRIPTION") || Contains(line, "AWAY")
  }

  /** A line counted as a home three. */
  predicate IsHomeThree(line: string) {
    Contains(line, "3PT") && HomeMark(line)
  }

  /** A line counted as an away three: the home test is tried first. */
  predicate IsAwayThree(line: string) {
    Contains(line, "3PT") && !HomeMark(line) && AwayMark(line)
  }

  /** The "HOMEDESCRIPTION" test adds nothing: any line containing it contains "HOME". */
  lemma HomeMarkIsHome(line: string)
    ensures HomeMark(line) <==> Contains(line, "HOME")
  {
    if Contains(line, "HOMEDESCRIPTION") {
      ContainsPrefix(line, "HOMEDESCRIPTION", "HOME");
    }
  }

  /** No line is both a home and an away three, and each of them mentions "3PT". */
  lemma ThreeKindsExclusive(line: string)
    ensures !(IsHomeThree(line) && IsAwayThree(line))
    ensures IsHomeThree(line) || IsAwayThree(line) ==> Contains(line, "3PT")
  {
  }

  /** The number of lines satisfying the home test. */
  function HomeCount(lines: seq<string>): nat {
    if lines == [] then 0 else HomeCount(lines[..|lines| - 1]) + if IsHomeThree(lines[|lines| - 1]) then 1 else 0
  }

  /** The number of lines satisfying the away test. */
  function AwayCount(lines: seq<string>): nat {
    if lines == [] then 0 else AwayCount(lines[..|lines| - 1]) + if IsAwayThree(lines[|lines| - 1]) then 1 else 0
  }

  /** The number of lines mentioning "3PT". */
  function ThreeCount(lines: seq<string>): nat {
    if lines == [] then 0 else ThreeCount(lines[..|lines| - 1]) + if Contains(lines[|lines| - 1], "3PT") then 1 else 0
  }

  /** Each line is counted at most once, so the reported total never exceeds the "3PT" lines. */
  lemma {:induction false} CountsBounded(lines: seq<string>)
    ensures HomeCount(lines) + AwayCount(lines) <= ThreeCount(lines)
    decreases |lines|
  {
    if lines != [] {
      CountsBounded(lines[..|lines| - 1]);
      ThreeKindsExclusive(lines[|lines| - 1]);
    }
  }

  // ---------------------------------------------------------------------------
  // Capitalised words
  // ---------------------------------------------------------------------------

  /** A word matching `[A-Z][a-z]+`. */
  predicate IsCapWord(w: string) {
    |w| >= 2 && IsUpperLetter(w[0]) && forall k :: 1 <= k < |w| ==> IsLowerLetter(w[k])
  }

  /** The end of the run of lower-case letters starting at `j`. */
  function LowerRunEnd(s: string, j: nat): (e: nat)
    requires j <= |s|
    ensures j <= e <= |s|
    ensures forall k :: j <= k < e ==> IsLowerLetter(s[k])
    ensures e == |s| || !IsLowerLetter(s[e])
    decreases |s| - j
  {
    if j < |s| && IsLowerLetter(s[j]) then LowerRunEnd(s, j + 1) else j
  }

  /** A match of `[A-Z][a-z]+` starts at `i`. */
  predicate MatchAt(s: string, i: nat) {
    i + 1 < |s| && IsUpperLetter(s[i]) && IsLowerLetter(s[i + 1])
  }

  /** `re.findall(r"[A-Z][a-z]+", s[i..])`: leftmost, greedy, non-overlapping matches. */
  function Tokens(s: string, i: nat): (r: seq<string>)
    requires i <= |s|
    ensures forall k :: 0 <= k < |r| ==> IsCapWord(r[k])
    decreases |s| - i
  {
    if i + 1 >= |s| then []
    else if MatchAt(s, i) then
      var e := LowerRunEnd(s, i + 1);
      [s[i..e]] + Tokens(s, e)
    else Tokens(s, i + 1)
  }

  /** Every match is a whole word: an upper-case letter followed by the longest run of lower-case ones. */
  lemma {:induction false} TokensAreWords(s: string, i: nat)
    requires i <= |s|
    ensures forall t :: t in Tokens(s, i) ==> exists a :: i <= a && MatchAt(s, a) && t == s[a..LowerRunEnd(s, a + 1)]
    decreases |s| - i
  {
    if i + 1 < |s| {
      if MatchAt(s, i) {
        var e := LowerRunEnd(s, i + 1);
        TokensAreWords(s, e);
        forall t | t in Tokens(s, i)
          ensures exists a :: i <= a && MatchAt(s, a) && t == s[a..LowerRunEnd(s, a + 1)]
        {
          if t != s[i..e] {
            assert t in Tokens(s, e);
          }
        }
      } else {
        TokensAreWords(s, i + 1);
      }
    }
  }

  /**
   * Every word is found: an upper-case letter followed by a lower-case one, anywhere after
   * the scan position, starts a match, because no earlier match can swallow an upper-case
   * letter.
   */
  lemma {:induction false} WordsAreTokens(s: string, i: nat, a: nat)
    requires i <= a && MatchAt(s, a)
    ensures s[a..LowerRunEnd(s, a + 1)] in Tokens(s, i)
    decreases |s| - i
  {
    if i < a {
      if MatchAt(s, i) {
        var e := LowerRunEnd(s, i + 1);
        assert e <= a;
        WordsAreTokens(s, e, a);
      } else {
        WordsAreTokens(s, i + 1, a);
      }
    }
  }

  /** The words of a list as a set: `set.update(words)`. */
  function Elements(words: seq<string>): set<string> {
    set t | t in words
  }

  /** The set of words seen on the lines: `team_names`. */
  function Names(lines: seq<string>): set<string> {
    if lines == [] then {}
    else Names(lines[..|lines| - 1]) + Elements(Tokens(lines[|lines| - 1], 0))
  }

  /** A name is collected exactly when one of the lines contains it as a match. */
  lemma {:induction false} NamesMeaning(lines: seq<string>, name: string)
    ensures name in Names(lines) <==> exists k :: 0 <= k < |lines| && name in Tokens(lines[k], 0)
    decreases |lines|
  {
    if lines != [] {
      var init := lines[..|lines| - 1];
      NamesMeaning(init, name);
      if exists k :: 0 <= k < |lines| && name in Tokens(lines[k], 0) {
        var k :| 0 <= k < |lines| && name in Tokens(lines[k], 0);
        if k < |init| {
          assert init[k] == lines[k];
        }
      }
      if exists k :: 0 <= k < |init| && name in Tokens(init[k], 0) {
        var k :| 0 <= k < |init| && name in Tokens(init[k], 0);
        assert lines[k] == init[k];
      }
    }
  }

  // ---------------------------------------------------------------------------
  // The counting loop and the sentence
  // ---------------------------------------------------------------------------

  /** The loop over the lines: both counters and the set of names. */
  method CountLines(lines: seq<string>) returns (home: nat, away: nat, names: set<string>)
    ensures home == HomeCount(lines) && away == AwayCount(lines) && names == Names(lines)
  {
    home, away, names := 0, 0, {};
    var i := 0;
    while i < |lines|
      invariant 0 <= i <= |lines|
      invariant home == HomeCount(lines[..i]) && away == AwayCount(lines[..i]) && names == Names(lines[..i])
    {
      var row := lines[i];
      assert lines[..i + 1][..i] == lines[..i];
      if Contains(row, "3PT") {
        if Contains(row, "HOMEDESCRIPTION") || Contains(row, "HOME") {
          home := home + 1;
        } else if Contains(row, "VISITORDESCRIPTION") || Contains(row, "AWAY") {
          away := away + 1;
        }
      }
      var m := Tokens(row, 0);
      if m != [] {
        names := names + Elements(m);
      }
      i := i + 1;
    }
    assert lines[..i] == lines;
  }

  /** At most two of the names, none twice: `list(team_names)[:2]`, whose order a set leaves open. */
  predicate Listing(listed: seq<string>, names: set<string>) {
    && |listed| == (if |names| < 2 then |names| else 2)
    && (forall k :: 0 <= k < |listed| ==> listed[k] in names)
    && (forall j, k :: 0 <= j < k < |listed| ==> listed[j] != listed[k])
  }

  /** Takes up to two names, in whatever order the set yields them. */
  method PickNames(names: set<string>) returns (listed: seq<string>)
    ensures Listing(listed, names)
  {
    listed := [];
    var rest := names;
    while |listed| < 2 && rest != {}
      invariant rest <= names
      invariant |listed| + |rest| == |names|
      invariant |listed| <= 2
      invariant forall k :: 0 <= k < |listed| ==> listed[k] in names && listed[k] !in rest
      invariant forall j, k :: 0 <= j < k < |listed| ==> listed[j] != listed[k]
      decreases |rest|
    {
      var x :| x in rest;
      listed := listed + [x];
      rest := rest - {x};
    }
  }

  /** The counts part of the sentence. */
  function CountsText(home: nat, away: nat): string {
    "Home 3-pointers: " + NatToString(home) + ", Away 3-pointers: " + NatToString(away) + ". "
    + "Total 3PT events: " + NatToString(home + away) + "."
  }

  /** The sentence of the preprocessing version. */
  function SummaryText(listed: seq<string>, home: nat, away: nat): string {
    "Detected teams: " + Join(", ", listed) + ". " + CountsText(home, away)
  }

  /** The detected-teams text of the question-answering version: "Unknown" when nothing is listed. */
  function DetectedText(listed: seq<string>): string {
    var joined := Join(", ", listed);
    if joined == "" then "Unknown" else joined
  }

  /** The sentence of the question-answering version. */
  function QaSummaryText(listed: seq<string>, home: nat, away: nat): string {
    "Detected teams: " + DetectedText(listed) + ". " + CountsText(home, away)
  }

  /** The sentence ends with the total, which is the sum of the two counts and reads back as that number. */
  lemma TotalIsSum(prefix: string, home: nat, away: nat)
    ensures
      var total := NatToString(home + away);
      var s := prefix + CountsText(home, away);
      && |s| >= |total| + 1
      && s[|s| - |total| - 1..|s| - 1] == total
      && ParseDigits(s[|s| - |total| - 1..|s| - 1]) == home + away
  {
    var total := NatToString(home + away);
    var s := prefix + CountsText(home, away);
    var head := prefix + "Home 3-pointers: " + NatToString(home) + ", Away 3-pointers: " + NatToString(away) + ". " + "Total 3PT events: ";
    assert s == head + total + ".";
    assert s[|head|..|head| + |total|] == total;
    ParseNatToString(home + away);
  }

  /** With no names, the question-answering version says "Unknown"; otherwise it lists them. */
  lemma DetectedUnknown(names: set<string>, listed: seq<string>)
    requires Listing(listed, names)
    requires forall n :: n in names ==> IsCapWord(n)
    ensures names == {} ==> DetectedText(listed) == "Unknown"
    ensures names != {} ==> DetectedText(listed) == Join(", ", listed) && listed != []
  {
    if names != {} {
      assert |listed| >= 1;
      assert IsCapWord(listed[0]);
      assert |Join(", ", listed)| >= |listed[0]| by {
        if |listed| > 1 {
          assert Join(", ", listed) == listed[0] + ", " + Join(", ", listed[1..]);
        }
      }
    }
  }

  /** Every collected name matches `[A-Z][a-z]+`. */
  lemma {:induction false} NamesAreWords(lines: seq<string>)
    ensures forall n :: n in Names(lines) ==> IsCapWord(n)
    decreases |lines|
  {
    if lines != [] {
      NamesAreWords(lines[..|lines| - 1]);
      var m := Tokens(lines[|lines| - 1], 0);
      assert forall n :: n in m ==> IsCapWord(n);
    }
  }

  /** `s` ends with `t`. */
  predicate EndsWith(s: string, t: string) {
    |t| <= |s| && s[|s| - |t|..] == t
  }

  /** Whatever the names and their order, the sentence opens with "Detected teams: " and ends with the counts. */
  lemma SentenceFrame(detected: string, home: nat, away: nat)
    ensures var s := "Detected teams: " + detected + ". " + CountsText(home, away);
      "Detected teams: " <= s && EndsWith(s, CountsText(home, away))
  {
    var counts := CountsText(home, away);
    var s := "Detected teams: " + detected + ". " + counts;
    var head := "Detected teams: " + detected + ". ";
    assert s == head + counts;
    assert s[|s| - |counts|..] == counts;
    assert s[..16] == "Detected teams: ";
  }

  /** The sentence for the lines of `raw`, given which names were listed. */
  predicate Summarizes(summary: string, raw: string, listed: seq<string>) {
    var lines := Lines(raw);
    Listing(listed, Names(lines)) && summary == SummaryText(listed, HomeCount(lines), AwayCount(lines))
  }

  /** `summarize_game_data` of the preprocessing module. */
  method SummarizeGameData(raw: string) returns (summary: string, ghost listed: seq<string>)
    ensures Summarizes(summary, raw, listed)
    ensures "Detected teams: " <= summary
    ensures EndsWith(summary, CountsText(HomeCount(Lines(raw)), AwayCount(Lines(raw))))
  {
    var lines := Lines(raw);
    var home, away, names := CountLines(lines);
    var picked := PickNames(names);
    summary := SummaryText(picked, home, away);
    listed := picked;
    SentenceFrame(Join(", ", picked), home, away);
  }

  /** The retrieved context: text, or another object that `str` renders. */
  datatype Context = Text(text: string) | Other(rendered: string)

  /** `str(raw_context)` when it is not already a string. */
  function AsText(c: Context): string {
    match c
    case Text(s) => s
    case Other(r) => r
  }

  /** `summarize_game_data` of the question-answering module: the same count, with the "Unknown" fallback. */
  method QaSummarizeGameData(raw: Context) returns (summary: string, ghost listed: seq<string>)
    ensures
      var lines := Lines(AsText(raw));
      && Listing(listed, Names(lines))
      && summary == QaSummaryText(listed, HomeCount(lines), AwayCount(lines))
    ensures "Detected teams: " <= summary
    ensures EndsWith(summary, CountsText(HomeCount(Lines(AsText(raw))), AwayCount(Lines(AsText(raw)))))
  {
    var text := AsText(raw);
    var lines := Lines(text);
    var home, away, names := CountLines(lines);
    var picked := PickNames(names);
    summary := QaSummaryText(picked, home, away);
    listed := picked;
    SentenceFrame(DetectedText(picked), home, away);
  }

  /** Both versions count the same lines and differ only when no name is found. */
  lemma VersionsAgree(listed: seq<string>, home: nat, away: nat)
    requires listed != [] && IsCapWord(listed[0])
    ensures QaSummaryText(listed, home, away) == SummaryText(listed, home, away)
  {
    assert |Join(", ", listed)| >= |listed[0]| by {
      if |listed| > 1 {
        assert Join(", ", listed) == listed[0] + ", " + Join(", ", listed[1..]);
      }
    }
  }
}
