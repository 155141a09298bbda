/** The strategy guide: each line is parsed into a round, the whole guide is
    collected before anything is scored, and the round scores are summed. */
module StrategyGuide {
  import opened Wrappers
  import opened RockPaperScissors
  import opened Tokenize

  /** Why a line cannot be turned into a round: the second `next()` on the
      tokens found nothing, or a token is not a shape letter. */
  datatype LineError = MissingToken | BadShape(err: AppError)

  /** Turns one line into a round: the first space-separated token is their
      play, the second is yours, anything after a second space is ignored.
      The first token is decoded before the second is looked for, so a bad
      first token is reported even when there is no second one. */
  function ParseLine(line: string): Result<Round, LineError>
  {
    var tokens := Split(line);
    match FromText(tokens[0])
    case Failure(e) => Failure(BadShape(e))
    case Success(theirs) =>
      if |tokens| < 2 then Failure(MissingToken)
      else
        match FromText(tokens[1])
        case Failure(e) => Failure(BadShape(e))
        case Success(yours) => Success(Round(theirs, yours))
  }

  /** The outcome of parsing two spaceless tokens: their play from the first,
      your play from the second, the first token's error before the second's. */
  function ParseTokens(a: string, b: string): (r: Result<Round, LineError>)
    ensures r.Success? <==> FromText(a).Success? && FromText(b).Success?
    ensures r.Success? ==> r.value == Round(FromText(a).value, FromText(b).value)
    ensures r.Failure? ==>
      r.error == BadShape(UnexpectedText(if FromText(a).Failure? then a else b))
  {
    match (FromText(a), FromText(b))
    case (Failure(e), _) => Failure(BadShape(e))
    case (Success(_), Failure(e)) => Failure(BadShape(e))
    case (Success(theirs), Success(yours)) => Success(Round(theirs, yours))
  }

  /** A line is read from its first two tokens only, the first decoded
      before the second; a line of one token fails, with MissingToken when
      that token is a shape letter. */
  lemma ParseLineByTokens(line: string)
    ensures |Split(line)| >= 2 ==> ParseLine(line) == ParseTokens(Split(line)[0], Split(line)[1])
    ensures |Split(line)| == 1 ==> ParseLine(line) == Failure(
      if FromText(line).Success? then MissingToken else BadShape(UnexpectedText(line)))
  {
  }

  /** The first token is their play and the second is yours; text after a
      second space is ignored whatever it holds. */
  lemma ParseLineTwoTokens(a: string, b: string, rest: string)
    requires ' ' !in a && ' ' !in b
    ensures ParseLine(a + " " + b) == ParseTokens(a, b)
    ensures ParseLine(a + " " + b + " " + rest) == ParseTokens(a, b)
  {
    SplitCons(a, b);
    SplitSpaceless(b);
    assert a + " " + b + " " + rest == a + " " + (b + " " + rest);
    SplitCons(a, b + " " + rest);
    SplitCons(b, rest);
  }

  /** A line without a space is a single token and never parses; when that
      token is a shape letter the failure is the missing second token. */
  lemma ParseLineNoSpace(line: string)
    requires ' ' !in line
    ensures ParseLine(line).Failure?
    ensures FromText(line).Success? ==> ParseLine(line) == Failure(MissingToken)
    ensures FromText(line).Failure? ==> ParseLine(line) == Failure(BadShape(UnexpectedText(line)))
  {
  }

  /** Two spaces after a good first token make the second token empty, which
      is not a shape letter. */
  lemma ParseLineDoubleSpace(a: string, rest: string)
    requires ' ' !in a && FromText(a).Success?
    ensures ParseLine(a + "  " + rest) == Failure(BadShape(UnexpectedText("")))
  {
    assert a + "  " + rest == a + " " + "" + " " + rest;
    ParseLineTwoTokens(a, "", rest);
    FromTextRejects("");
  }

  /** Encoding a round as their letter, a space and your letter, optionally
      followed by a space and anything, parses back to that round. */
  lemma ParseLineRoundTrip(round: Round, rest: string)
    ensures ParseLine(TheirCode(round.theirs) + " " + YourCode(round.yours)) == Success(round)
    ensures ParseLine(TheirCode(round.theirs) + " " + YourCode(round.yours) + " " + rest) == Success(round)
  {
    FromTextRoundTrip(round.theirs);
    FromTextRoundTrip(round.yours);
    ParseLineTwoTokens(TheirCode(round.theirs), YourCode(round.yours), rest);
  }

  /** A line parses exactly when it is a shape letter, a space, a shape
      letter, and then either nothing or a space; the round is read from
      the two letters. */
  lemma ParseLineSucceedsIff(line: string)
    ensures ParseLine(line).Success? <==>
      && |line| >= 3 && line[1] == ' ' && (|line| == 3 || line[3] == ' ')
      && FromText(line[..1]).Success? && FromText(line[2..3]).Success?
    ensures ParseLine(line).Success? ==>
      ParseLine(line).value == Round(FromText(line[..1]).value, FromText(line[2..3]).value)
  {
    var tokens := Split(line);
    if && |line| >= 3 && line[1] == ' ' && (|line| == 3 || line[3] == ' ')
       && FromText(line[..1]).Success? && FromText(line[2..3]).Success?
    {
      var a, b := line[..1], line[2..3];
      FromTextShape(a);
      FromTextShape(b);
      assert a == [a[0]] && b == [b[0]];
      if |line| == 3 {
        assert line == a + " " + b;
        ParseLineTwoTokens(a, b, "");
      } else {
        assert line == a + " " + b + " " + line[4..];
        ParseLineTwoTokens(a, b, line[4..]);
      }
    } else if ParseLine(line).Success? {
      // Both tokens decode, so each is a single letter without a space.
      var a, b := tokens[0], tokens[1];
      FromTextShape(a);
      FromTextShape(b);
      JoinTwoLetters(tokens);
      assert false;
    }
  }

  /** Text whose first two tokens are single characters has them at
      positions 0 and 2, with a space between and a space or the end after. */
  lemma JoinTwoLetters(tokens: seq<string>)
    requires |tokens| >= 2 && |tokens[0]| == 1 && |tokens[1]| == 1
    ensures var line := Join(tokens);
      && |line| >= 3 && line[1] == ' ' && (|line| == 3 || line[3] == ' ')
      && line[..1] == tokens[0] && line[2..3] == tokens[1]
  {
  }

  /** A token that decodes is one upper-case letter. */
  lemma FromTextShape(t: string)
    requires FromText(t).Success?
    ensures |t| == 1 && t[0] in "ABCXYZ"
  {
  }

  /** The map/collect over all lines: the rounds in order, or the error of
      the first line that does not parse (nothing after it is looked at). */
  function ParseGuide(lines: seq<string>): (r: Result<seq<Round>, LineError>)
    ensures r.Success? <==> forall i :: 0 <= i < |lines| ==> ParseLine(lines[i]).Success?
    ensures r.Success? ==>
      |r.value| == |lines| && forall i :: 0 <= i < |lines| ==> ParseLine(lines[i]) == Success(r.value[i])
    ensures r.Failure? ==>
      exists i :: 0 <= i < |lines| && ParseLine(lines[i]) == Failure(r.error) &&
        forall j :: 0 <= j < i ==> ParseLine(lines[j]).Success?
  {
    if lines == [] then Success([])
    else
      match ParseLine(lines[0])
      case Failure(e) => Failure(e)
      case Success(round) =>
        match ParseGuide(lines[1..])
        case Failure(e) =>
          ghost var i :| 0 <= i < |lines[1..]| && ParseLine(lines[1..][i]) == Failure(e) &&
            forall j :: 0 <= j < i ==> ParseLine(lines[1..][j]).Success?;
          assert ParseLine(lines[i + 1]) == Failure(e);
          Failure(e)
        case Success(rounds) => Success([round] + rounds)
  }

  /** When every line parses, the guide collects to those rounds in order. */
  lemma ParseGuideOfParsed(lines: seq<string>, rounds: seq<Round>)
    requires |lines| == |rounds|
    requires forall i :: 0 <= i < |lines| ==> ParseLine(lines[i]) == Success(rounds[i])
    ensures ParseGuide(lines) == Success(rounds)
  {
    var r := ParseGuide(lines);
    assert r.Success?;
    assert r.value == rounds;
  }

  /** The sum of the round scores, added up from the first round to the last. */
  function SumScores(rounds: seq<Round>): (total: int)
    ensures |rounds| <= total <= 9 * |rounds|
  {
    if rounds == [] then 0
    else SumScores(rounds[..|rounds| - 1]) + RoundScore(rounds[|rounds| - 1])
  }

  /** The total of two guides read one after the other is the sum of their totals. */
  lemma {:induction false} SumScoresAppend(a: seq<Round>, b: seq<Round>)
    ensures SumScores(a + b) == SumScores(a) + SumScores(b)
    decreases |b|
  {
    if b == [] {
      assert a + b == a;
    } else {
      var n := |b| - 1;
      assert (a + b)[..|a + b| - 1] == a + b[..n];
      SumScoresAppend(a, b[..n]);
    }
  }

  /** The `total` loop: adds each round's score to a running total that
      starts at 0, and ends with the sum of all round scores. */
  method TotalScore(guide: seq<Round>) returns (total: int)
    ensures total == SumScores(guide)
  {
    total := 0;
    for i := 0 to |guide|
      invariant total == SumScores(guide[..i])
    {
      assert guide[..i + 1][..i] == guide[..i];
      total := total + RoundScore(guide[i]);
    }
    assert guide[..|guide|] == guide;
  }

  /** What the program computes from the lines of its input: the total, or
      the error of the first bad line. */
  function GuideTotal(lines: seq<string>): (r: Result<int, LineError>)
    ensures r.Success? ==> |lines| <= r.value <= 9 * |lines|
  {
    match ParseGuide(lines)
    case Failure(e) => Failure(e)
    case Success(rounds) => Success(SumScores(rounds))
  }

  /** The program's run over the lines of its input: collect every round,
      aborting on the first bad line, then add up the scores. */
  method Run(lines: seq<string>) returns (r: Result<int, LineError>)
    ensures r == GuideTotal(lines)
    ensures r.Success? <==> forall i :: 0 <= i < |lines| ==> ParseLine(lines[i]).Success?
  {
    var guide := ParseGuide(lines);
    match guide
    case Failure(e) =>
      r := Failure(e);
    case Success(rounds) =>
      var total := TotalScore(rounds);
      r := Success(total);
  }

  /** An empty guide scores 0. */
  lemma EmptyGuide()
    ensures GuideTotal([]) == Success(0)
  {
  }

  /** A line of two characters around one space is read as those two tokens. */
  lemma ParseLineLetters(a: char, b: char)
    requires a != ' ' && b != ' '
    ensures ParseLine([a, ' ', b]) == ParseTokens([a], [b])
  {
    ParseLineTwoTokens([a], [b], "");
    assert [a] + " " + [b] == [a, ' ', b];
  }

  /** The lines of the worked example parse to the rounds they encode. */
  lemma ExampleLines()
    ensures ParseLine("A Y") == Success(Round(Rock, Paper))
    ensures ParseLine("B X") == Success(Round(Paper, Rock))
    ensures ParseLine("C Z") == Success(Round(Scissors, Scissors))
  {
    ParseLineLetters('A', 'Y');
    ParseLineLetters('B', 'X');
    ParseLineLetters('C', 'Z');
  }

  /** The worked example collects to its three rounds. */
  lemma ExampleRounds()
    ensures ParseGuide(["A Y", "B X", "C Z"])
      == Success([Round(Rock, Paper), Round(Paper, Rock), Round(Scissors, Scissors)])
  {
    ExampleLines();
    ParseGuideOfParsed(["A Y", "B X", "C Z"],
      [Round(Rock, Paper), Round(Paper, Rock), Round(Scissors, Scissors)]);
  }

  /** The worked example: "A Y", "B X" and "C Z" score 8, 1 and 6, 15 in all. */
  lemma ExampleGuide()
    ensures RoundScore(Round(Rock, Paper)) == 8
    ensures RoundScore(Round(Paper, Rock)) == 1
    ensures RoundScore(Round(Scissors, Scissors)) == 6
    ensures GuideTotal(["A Y", "B X", "C Z"]) == Success(15)
  {
    RoundScoreTable();
    ExampleRounds();
    var rounds := [Round(Rock, Paper), Round(Paper, Rock), Round(Scissors, Scissors)];
    assert rounds[..2][..1] == rounds[..1];
    assert rounds[..1][..0] == [];
    assert SumScores(rounds[..1]) == 8;
    assert SumScores(rounds[..2]) == 9;
  }

  /** A line with an unknown letter stops the run and names the letter. */
  lemma BadLetterGuide()
    ensures GuideTotal(["A Y", "A Q"]) == Failure(BadShape(UnexpectedText("Q")))
    ensures GuideTotal(["A Y", "A"]) == Failure(MissingToken)
  {
    ParseLineLetters('A', 'Y');
    ParseLineLetters('A', 'Q');
    FromTextRejects("Q");
    ParseLineNoSpace("A");
    assert ["A Y", "A Q"][1..] == ["A Q"];
    assert ["A Y", "A"][1..] == ["A"];
  }
}
