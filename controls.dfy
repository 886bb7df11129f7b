/** The control strip of the page: the start/finish button and the final
    percentage (src/app/components/GameControls/GameControls.tsx). */
module GameControls {

  /** The handler the control button is wired to. */
  datatype Action = StartGame | FinishGame

  /** What `calculatePercentage` yields: the bare literal "0" when no question
      was asked, otherwise the ratio times 100 (shown with two decimals). */
  datatype Percentage = Bare0 | Fixed(value: real)

  /** The button's `onClick`: start when no game runs, finish a running one. */
  function ButtonAction(isGameStarted: bool, isGameFinished: bool): (a: Action)
    ensures a == StartGame <==> !isGameStarted || isGameFinished
    ensures a == FinishGame <==> isGameStarted && !isGameFinished
  {
    if !isGameStarted || isGameFinished then StartGame else FinishGame
  }

  /** The button's text, chosen by the same condition as its handler. */
  function ButtonLabel(isGameStarted: bool, isGameFinished: bool): (l: string)
    ensures l == "Start Game" <==> ButtonAction(isGameStarted, isGameFinished) == StartGame
    ensures l == "Finish Game" <==> ButtonAction(isGameStarted, isGameFinished) == FinishGame
  {
    if !isGameStarted || isGameFinished then "Start Game" else "Finish Game"
  }

  /** `calculatePercentage`, on exact rationals. */
  function CalculatePercentage(correctAnswers: nat, totalQuestions: nat): (p: Percentage)
    ensures p == Bare0 <==> totalQuestions == 0
    ensures p.Fixed? ==> p.value * (totalQuestions as real) == (correctAnswers as real) * 100.0
  {
    if totalQuestions > 0 then Fixed((correctAnswers as real) / (totalQuestions as real) * 100.0)
    else Bare0
  }

  /** A session never has more correct answers than questions, so the
      percentage it reports lies between 0 and 100. */
  lemma PercentageInRange(correctAnswers: nat, totalQuestions: nat)
    requires correctAnswers <= totalQuestions
    ensures var p := CalculatePercentage(correctAnswers, totalQuestions);
      p.Fixed? ==> 0.0 <= p.value <= 100.0
  {
  }

  /** Eight of ten answers correct reads 80 (shown as "80.00"). */
  lemma EightOfTen()
    ensures CalculatePercentage(8, 10) == Fixed(80.0)
  {
  }
}
