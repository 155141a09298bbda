/** The game itself: the three shapes, a round (their play, your play), who
    wins a round, and the two score tables. */
module RockPaperScissors {
  import opened Wrappers

  datatype Shape = Rock | Paper | Scissors

  /** A round of the strategy guide: their play first, your play second. */
  datatype Round = Round(theirs: Shape, yours: Shape)

  /** The outcome of a round, seen from your side. */
  datatype Winner = You | Them | Draw

  /** The error `from_text` returns, carrying the text it could not decode. */
  datatype AppError = UnexpectedText(text: string)

  /** The letter the strategy guide uses for their play. */
  function TheirCode(s: Shape): string
  {
    match s
    case Rock => "A"
    case Paper => "B"
    case Scissors => "C"
  }

  /** The letter the strategy guide uses for your play. */
  function YourCode(s: Shape): string
  {
    match s
    case Rock => "X"
    case Paper => "Y"
    case Scissors => "Z"
  }

  /** The score of the shape you play: 1 for Rock, 2 for Paper, 3 for Scissors. */
  function ShapeScore(s: Shape): (r: int)
    ensures 1 <= r <= 3
  {
    match s
    case Rock => 1
    case Paper => 2
    case Scissors => 3
  }

  /** Different shapes score differently, so the score identifies the shape. */
  lemma ShapeScoreInjective(a: Shape, b: Shape)
    ensures ShapeScore(a) == ShapeScore(b) <==> a == b
  {
  }

  /** Decodes one token of a line: A/X, B/Y and C/Z name Rock, Paper and
      Scissors; any other text is an error that carries the text. */
  function FromText(input: string): (r: Result<Shape, AppError>)
    ensures forall s :: r == Success(s) <==> input == TheirCode(s) || input == YourCode(s)
    ensures r.Failure? ==> r.error == UnexpectedText(input)
  {
    if input == "A" || input == "X" then Success(Rock)
    else if input == "B" || input == "Y" then Success(Paper)
    else if input == "C" || input == "Z" then Success(Scissors)
    else Failure(UnexpectedText(input))
  }

  /** Both letters of a pair decode to the same shape, and decoding undoes
      encoding on either side. */
  lemma FromTextRoundTrip(s: Shape)
    ensures FromText(TheirCode(s)) == FromText(YourCode(s)) == Success(s)
  {
  }

  /** Only the six upper-case letters decode: the empty string, longer text
      and every other single character (lower case included) are errors. */
  lemma FromTextRejects(input: string)
    requires |input| != 1 || input[0] !in "ABCXYZ"
    ensures FromText(input) == Failure(UnexpectedText(input))
  {
  }

  /** The declarative beats-relation: Paper beats Rock, Rock beats Scissors,
      Scissors beats Paper. */
  predicate Beats(a: Shape, b: Shape)
  {
    || (a == Paper && b == Rock)
    || (a == Rock && b == Scissors)
    || (a == Scissors && b == Paper)
  }

  /** Exactly one of: a beats b, b beats a, a and b are equal. */
  lemma BeatsTrichotomy(a: Shape, b: Shape)
    ensures Beats(a, b) ==> !Beats(b, a) && a != b
    ensures a != b ==> Beats(a, b) || Beats(b, a)
  {
  }

  /** The beats-relation is the cyclic one on shape scores: a shape beats
      the one whose score is one less, modulo 3. */
  lemma BeatsIsCyclic(a: Shape, b: Shape)
    ensures Beats(a, b) <==> (ShapeScore(a) - ShapeScore(b)) % 3 == 1
  {
  }

  /** Who wins a round. The arms are tried in order as in the program: the
      three pairs where you win, then equal plays, then everything else. The
      contract states that the ordered arms agree with the beats-relation. */
  function RoundWinner(round: Round): (w: Winner)
    ensures w == You <==> Beats(round.yours, round.theirs)
    ensures w == Draw <==> round.theirs == round.yours
    ensures w == Them <==> Beats(round.theirs, round.yours)
  {
    match (round.theirs, round.yours)
    case (Paper, Scissors) | (Rock, Paper) | (Scissors, Rock) => You
    case (x, y) => if x == y then Draw else Them
  }

  /** Swapping the two plays swaps the winner: you win (a, b) exactly when
      they win (b, a), and a draw stays a draw. */
  lemma WinnerAntisymmetric(a: Shape, b: Shape)
    ensures RoundWinner(Round(a, b)) == You <==> RoundWinner(Round(b, a)) == Them
    ensures RoundWinner(Round(a, b)) == Draw <==> RoundWinner(Round(b, a)) == Draw
  {
  }

  /** The outcome score: 6 for a win, 3 for a draw, 0 for a loss. */
  function WinnerScore(w: Winner): (r: int)
    ensures 0 <= r <= 6 && r % 3 == 0
  {
    match w
    case You => 6
    case Draw => 3
    case Them => 0
  }

  /** A better outcome scores strictly more. */
  lemma WinnerScoreOrdered()
    ensures WinnerScore(Them) < WinnerScore(Draw) < WinnerScore(You)
  {
  }

  /** The score of a round: your shape's score plus the outcome's score. */
  function RoundScore(round: Round): (r: int)
    ensures 1 <= r <= 9
  {
    ShapeScore(round.yours) + WinnerScore(RoundWinner(round))
  }

  /** The round score can be decoded back into its two parts: the remainder
      gives your shape's score and the quotient gives the outcome's score. */
  lemma RoundScoreDecodes(round: Round)
    ensures (RoundScore(round) - 1) % 3 + 1 == ShapeScore(round.yours)
    ensures 3 * ((RoundScore(round) - 1) / 3) == WinnerScore(RoundWinner(round))
  {
  }

  /** The nine rounds and their scores, as the game's table gives them. */
  lemma RoundScoreTable()
    ensures RoundScore(Round(Rock, Rock)) == 4
    ensures RoundScore(Round(Rock, Paper)) == 8
    ensures RoundScore(Round(Rock, Scissors)) == 3
    ensures RoundScore(Round(Paper, Rock)) == 1
    ensures RoundScore(Round(Paper, Paper)) == 5
    ensures RoundScore(Round(Paper, Scissors)) == 9
    ensures RoundScore(Round(Scissors, Rock)) == 7
    ensures RoundScore(Round(Scissors, Paper)) == 2
    ensures RoundScore(Round(Scissors, Scissors)) == 6
  {
  }
}
