# Rock Paper Scissors strategy guide (Advent of Code 2022, day 2), in Dafny

This project models the scoring program of `day2/src/main.rs`. The program
reads a strategy guide, one round per line. Each line holds their play and
your play as letters. The program decodes the letters into shapes, decides
who wins each round, scores each round and prints the total.

Modules:

- `Wrappers` – the `Result` datatype used for `Err` values and for the
  `unwrap()` panics.
- `RockPaperScissors` – `Shape`, `Round` and `Winner`. It holds the two
  score tables (`Shape::score`, `Winner::score`), `Shape::from_text` and
  `Round::winner`. `Round::winner` is written with its match arms in the
  program's order and is proved equal to a declarative beats-relation.
- `Tokenize` – `str::split(" ")`. Split is specified by being the inverse of
  joining spaceless tokens with one space.
- `StrategyGuide` – the per-line closure of `main` and the map/collect over
  all lines. It also holds the `total` loop (a method with a loop invariant
  over the processed prefix) and the whole run.

The program aborts on the first line that cannot be parsed. The model returns
`Failure` with that line's error instead. A line fails when its second token
is missing (`MissingToken`) or when a token is not a shape letter
(`BadShape`). The first token is decoded before the second is looked for.

Where the code differs from a plain description of the format, the model
follows the code:

- Lines are not trimmed.
- Splitting is on each single space, so two spaces give an empty token.
- Tokens after the second one are ignored instead of being an error.

## Model

| member | source | states |
|---|---|---|
| RockPaperScissors.ShapeScore | day2/src/main.rs:15-21 | a shape scores between 1 and 3 |
| RockPaperScissors.ShapeScoreInjective | day2/src/main.rs:15-21 | two shapes score the same exactly when they are the same shape |
| RockPaperScissors.FromText | day2/src/main.rs:23-29 | decoding gives shape s exactly when the text is s's letter A/B/C or X/Y/Z; otherwise it is an error carrying the text |
| RockPaperScissors.FromTextRoundTrip | day2/src/main.rs:25-27 | both letters of a pair decode to the same shape, and decoding inverts encoding |
| RockPaperScissors.FromTextRejects | day2/src/main.rs:28 | the empty string, longer text and every single character other than A, B, C, X, Y, Z (lower case included) are rejected |
| RockPaperScissors.BeatsTrichotomy | day2/src/main.rs:44-48 | for two shapes, exactly one holds: the first beats the second, the second beats the first, or they are equal |
| RockPaperScissors.BeatsIsCyclic | day2/src/main.rs:44-46 | a shape beats another exactly when its score is one more, modulo 3 |
| RockPaperScissors.RoundWinner | day2/src/main.rs:42-50 | the ordered match arms give You exactly when your play beats theirs, Draw exactly when the plays are equal, Them exactly when theirs beats yours |
| RockPaperScissors.WinnerAntisymmetric | day2/src/main.rs:44-48 | you win (a, b) exactly when they win (b, a); a draw stays a draw when the plays are swapped |
| RockPaperScissors.WinnerScore | day2/src/main.rs:60-66 | an outcome scores 0, 3 or 6 |
| RockPaperScissors.WinnerScoreOrdered | day2/src/main.rs:60-66 | a loss scores less than a draw, and a draw less than a win |
| RockPaperScissors.RoundScore | day2/src/main.rs:83 | a round scores between 1 and 9 |
| RockPaperScissors.RoundScoreDecodes | day2/src/main.rs:83 | the round score determines its parts: your shape's score is its remainder and the outcome's score its quotient, counting from 1 in steps of 3 |
| RockPaperScissors.RoundScoreTable | day2/src/main.rs:42-66 | the scores of all nine rounds |
| Tokenize.FirstSpace | day2/src/main.rs:74 | the position found is a space, or the end, and no space comes before it |
| Tokenize.Split | day2/src/main.rs:74 | splitting gives at least one token; no token holds a space; joining the tokens with single spaces gives the line back |
| Tokenize.SplitJoin | day2/src/main.rs:74 | splitting the join of spaceless tokens gives those tokens back, so the split is unique |
| Tokenize.SplitCons | day2/src/main.rs:74 | a spaceless token followed by a space splits off as the first token |
| Tokenize.FirstSpaceOf | day2/src/main.rs:74 | the first space after a spaceless token is the one right after it |
| Tokenize.SplitSpaceless | day2/src/main.rs:74 | text without a space is a single token |
| StrategyGuide.ParseLine | day2/src/main.rs:73-78 | no contract of its own: splits on " ", decodes the first token before looking for the second, fails with MissingToken when there is none, then decodes the second token and ignores later ones (stated by the ParseLine lemmas below) |
| StrategyGuide.ParseTokens | day2/src/main.rs:75-76 | two tokens give a round exactly when both decode, their play from the first and your play from the second; on failure the error names the first token if it is bad, otherwise the second |
| StrategyGuide.ParseLineByTokens | day2/src/main.rs:73-78 | a line with two or more tokens is read from its first two tokens only; a line of one token fails, with MissingToken when it is a shape letter and with that token's error otherwise |
| StrategyGuide.ParseLineTwoTokens | day2/src/main.rs:73-78 | the first token is their play, the second is yours, and anything after a second space is ignored |
| StrategyGuide.ParseLineNoSpace | day2/src/main.rs:74-76 | a line without a space fails: with MissingToken when it is a shape letter, and with the error for the bad token otherwise |
| StrategyGuide.ParseLineDoubleSpace | day2/src/main.rs:74-76 | after a good first token, a double space gives an empty second token, which is rejected |
| StrategyGuide.ParseLineRoundTrip | day2/src/main.rs:73-78 | their letter, a space and your letter, optionally followed by a space and anything, parse back to the round |
| StrategyGuide.ParseLineSucceedsIff | day2/src/main.rs:73-78 | a line parses exactly when it is letter, space, letter, then the end or a space; the round is read from the two letters |
| StrategyGuide.ParseLineLetters | day2/src/main.rs:73-78 | a three-character line with a space in the middle is read as its two outer characters |
| StrategyGuide.FromTextShape | day2/src/main.rs:23-29 | a token that decodes is a single upper-case letter A, B, C, X, Y or Z |
| StrategyGuide.JoinTwoLetters | day2/src/main.rs:74 | two one-character tokens sit at positions 0 and 2, followed by the end or a space |
| StrategyGuide.ParseGuide | day2/src/main.rs:71-79 | collecting succeeds exactly when every line parses, and then gives each line's round in order; otherwise the error is that of the first line that fails |
| StrategyGuide.ParseGuideOfParsed | day2/src/main.rs:71-79 | when every line parses to a given round, the guide collects to exactly those rounds |
| StrategyGuide.SumScores | day2/src/main.rs:81-84 | the sum of n round scores lies between n and 9n |
| StrategyGuide.SumScoresAppend | day2/src/main.rs:81-84 | the total of two guides read one after the other is the sum of their totals |
| StrategyGuide.TotalScore | day2/src/main.rs:81-84 | the loop's total equals the sum of the round scores in order (invariant: the total so far is the sum over the processed prefix) |
| StrategyGuide.GuideTotal | day2/src/main.rs:69-88 | a successful run over n lines totals between n and 9n |
| StrategyGuide.Run | day2/src/main.rs:69-88 | the run computes the guide's total, and succeeds exactly when every line parses |
| StrategyGuide.EmptyGuide | day2/src/main.rs:81-84 | an empty guide totals 0 |
| StrategyGuide.ExampleLines | day2/src/main.rs:73-78 | "A Y", "B X" and "C Z" parse to (Rock, Paper), (Paper, Rock) and (Scissors, Scissors) |
| StrategyGuide.ExampleRounds | day2/src/main.rs:71-79 | the three example lines collect to those three rounds |
| StrategyGuide.ExampleGuide | day2/src/main.rs:73-84 | the example rounds score 8, 1 and 6, and the example guide totals 15 |
| StrategyGuide.BadLetterGuide | day2/src/main.rs:75-76 | a line "A Q" stops the run with the error for "Q"; a line "A" stops it with MissingToken |

## Left out

- `read_lines`, `File::open` and `BufReader` (day2/src/main.rs:90-99) are file I/O. The input is given as a sequence of lines, and a line that cannot be read is not modelled.
- `println!` (day2/src/main.rs:85) is output. `Run` returns the total instead of printing it.
- The `unwrap()` panics are modelled as a `Failure` result that stops at the first bad line. Process termination and the panic message are not modelled.
- `AppError`'s `Display` implementation and the text of its message (day2/src/main.rs:28, 101-116) are formatting. The model keeps only the offending text.
- StrategyGuide.TotalScore: does not model the 32-bit `i32` overflow of `total`. Integers are unbounded here, and `SumScores` bounds the total by 9 times the number of rounds.
