/** The quiz page (src/app/page.tsx): its state fields and the handlers that
    overwrite them. Each React setter becomes an assignment, executed in the
    order the handler issues it. */
module Page {
  import opened PokemonModel
  import opened QuestionGenerator
  import opened GameControls

  datatype Option<T> = None | Some(value: T)

  /** `answer === currentPokemon?.name`: never true while no entry is shown. */
  predicate Matches(current: Option<Pokemon>, answer: string)
  {
    current.Some? && current.value.name == answer
  }

  /** The `options.sort(...)` call: the array is reordered in place by the
      exchanges the random comparator leads the sort to make. */
  method SortInPlace(a: array<string>, swaps: seq<Swap>)
    requires SwapsWithin(swaps, a.Length)
    modifies a
    ensures a[..] == ApplySwaps(old(a[..]), swaps)
  {
    var k := 0;
    while k < |swaps|
      invariant 0 <= k <= |swaps|
      invariant SwapsWithin(swaps[k..], a.Length)
      invariant ApplySwaps(a[..], swaps[k..]) == ApplySwaps(old(a[..]), swaps)
    {
      var i, j := swaps[k].i, swaps[k].j;
      assert swaps[k..][1..] == swaps[k + 1..];
      a[i], a[j] := a[j], a[i];
      k := k + 1;
    }
  }

  /** The `options` array of `generateQuestion` before the sort: seeded with
      the target's name, then a drawn name is pushed whenever it is new, until
      four are present. */
  method CollectDistinctNames(list: seq<Pokemon>, rnd: RandomDraws) returns (opts: array<string>)
    requires Adequate(list, rnd)
    ensures fresh(opts) && opts.Length == OptionCount
    ensures opts[..] == BuiltOptions(list, rnd)
  {
    var ds := rnd.distractors;
    BuiltOptionsWellFormed(list, rnd);
    opts := new string[OptionCount];
    opts[0] := list[rnd.target].name;
    var len := 1;
    var k := 0;
    assert opts[..len] == [list[rnd.target].name];
    while len < OptionCount
      invariant 1 <= len <= OptionCount && 0 <= k <= |ds|
      invariant CollectOptions(list, opts[..len], ds[k..]) == BuiltOptions(list, rnd)
      invariant len < OptionCount ==> k < |ds|
      modifies opts
      decreases |ds| - k
    {
      var randomOption := list[ds[k]].name;
      assert ds[k..][1..] == ds[k + 1..];
      k := k + 1;
      if randomOption !in opts[..len] {
        opts[len] := randomOption;
        assert opts[..len + 1] == opts[..len] + [randomOption];
        len := len + 1;
      }
    }
  }

  class GamePage {
    /** The catalog, as loaded once when the page mounts. */
    const pokemonList: seq<Pokemon>
    var currentPokemon: Option<Pokemon>
    var options: seq<string>
    var score: nat
    var showAnswer: bool
    var isGameStarted: bool
    var isGameFinished: bool
    var totalQuestions: nat
    var correctAnswers: nat
    var userAnswer: Option<string>

    /** What every handler keeps, whatever the order it is called in. */
    ghost predicate Valid()
      reads this
    {
      score == correctAnswers &&
      (showAnswer <==> userAnswer.Some?) &&
      (isGameStarted ==> currentPokemon.Some? && totalQuestions >= 1) &&
      (currentPokemon.Some? ==> QuestionOk(pokemonList, currentPokemon.value, options))
    }

    /** What holds in every state the page's enabled controls lead to: a game
        is finished only once started, and no question is scored twice, so
        correct answers plus the one still pending never exceed the questions asked. */
    ghost predicate Reachable()
      reads this
    {
      (isGameFinished ==> isGameStarted) &&
      correctAnswers + (if currentPokemon.Some? && !showAnswer then 1 else 0) <= totalQuestions
    }

    /** The page right after the catalog loaded: every field at its initial value. */
    constructor (responses: seq<PokemonApiResponse>)
      ensures pokemonList == TransformPokemonData(responses)
      ensures currentPokemon == None && options == [] && userAnswer == None
      ensures score == 0 && correctAnswers == 0 && totalQuestions == 0
      ensures !showAnswer && !isGameStarted && !isGameFinished
      ensures Valid() && Reachable()
    {
      pokemonList := TransformPokemonData(responses);
      currentPokemon := None;
      options := [];
      score := 0;
      showAnswer := false;
      isGameStarted := false;
      isGameFinished := false;
      totalQuestions := 0;
      correctAnswers := 0;
      userAnswer := None;
    }

    /** `generateQuestion`: pick the target, collect four distinct names, reorder
        them, and open a new unanswered question. */
    method GenerateQuestion(list: seq<Pokemon>, rnd: RandomDraws)
      requires Adequate(list, rnd)
      modifies this
      ensures currentPokemon == Some(list[rnd.target])
      ensures options == ShownOptions(list, rnd)
      ensures QuestionOk(list, currentPokemon.value, options)
      ensures multiset(options) == multiset(BuiltOptions(list, rnd))
      ensures !showAnswer && userAnswer == None
      ensures totalQuestions == old(totalQuestions) + 1
      ensures score == old(score) && correctAnswers == old(correctAnswers)
      ensures isGameStarted == old(isGameStarted) && isGameFinished == old(isGameFinished)
      ensures list == pokemonList && old(Valid()) ==> Valid()
    {
      var randomPokemon := list[rnd.target];
      var opts := CollectDistinctNames(list, rnd);
      SortInPlace(opts, rnd.swaps);
      options := opts[..];
      ShownOptionsWellFormed(list, rnd);
      currentPokemon := Some(randomPokemon);
      showAnswer := false;
      totalQuestions := totalQuestions + 1;
      userAnswer := None;
    }

    /** `startGame`: reset the session and ask the first question; the counter
        reset to 0 is then incremented by the generated question. */
    method StartGame(rnd: RandomDraws)
      requires Adequate(pokemonList, rnd)
      modifies this
      ensures isGameStarted && !isGameFinished
      ensures score == 0 && correctAnswers == 0 && totalQuestions == 1
      ensures currentPokemon == Some(pokemonList[rnd.target])
      ensures options == ShownOptions(pokemonList, rnd)
      ensures !showAnswer && userAnswer == None
      ensures Valid() && Reachable()
    {
      isGameStarted := true;
      isGameFinished := false;
      score := 0;
      totalQuestions := 0;
      correctAnswers := 0;
      GenerateQuestion(pokemonList, rnd);
    }

    /** `finishGame`: only the finished flag changes. */
    method FinishGame()
      requires Valid()
      modifies this`isGameFinished
      ensures isGameFinished
      ensures Valid()
      ensures old(Reachable()) && old(isGameStarted) ==> Reachable()
    {
      isGameFinished := true;
    }

    /** `handleAnswer`: record the choice, reveal the answer, and score one
        point (in both counters) exactly when the choice names the target. */
    method HandleAnswer(answer: string)
      requires Valid()
      modifies this
      ensures userAnswer == Some(answer) && showAnswer
      ensures score == old(score) + (if Matches(old(currentPokemon), answer) then 1 else 0)
      ensures correctAnswers == old(correctAnswers) + (if Matches(old(currentPokemon), answer) then 1 else 0)
      ensures currentPokemon == old(currentPokemon) && options == old(options)
      ensures totalQuestions == old(totalQuestions)
      ensures isGameStarted == old(isGameStarted) && isGameFinished == old(isGameFinished)
      ensures Valid()
      ensures old(Reachable()) && !old(showAnswer) ==> Reachable()
    {
      userAnswer := Some(answer);
      if Matches(currentPokemon, answer) {
        score := score + 1;
        correctAnswers := correctAnswers + 1;
      }
      showAnswer := true;
    }

    /** `nextQuestion`: a fresh question; the score is untouched. */
    method NextQuestion(rnd: RandomDraws)
      requires Valid() && Adequate(pokemonList, rnd)
      modifies this
      ensures currentPokemon == Some(pokemonList[rnd.target])
      ensures options == ShownOptions(pokemonList, rnd)
      ensures !showAnswer && userAnswer == None
      ensures totalQuestions == old(totalQuestions) + 1
      ensures score == old(score) && correctAnswers == old(correctAnswers)
      ensures isGameStarted == old(isGameStarted) && isGameFinished == old(isGameFinished)
      ensures Valid()
      ensures old(Reachable()) ==> Reachable()
    {
      GenerateQuestion(pokemonList, rnd);
    }

    /** The control button (GameControls.tsx:31): it starts a game unless one
        is running, which it finishes. Reachable states stay reachable. */
    method ControlButton(rnd: RandomDraws)
      requires Valid()
      requires ButtonAction(isGameStarted, isGameFinished).StartGame? ==> Adequate(pokemonList, rnd)
      modifies this
      ensures old(ButtonAction(isGameStarted, isGameFinished)).StartGame? ==>
        isGameStarted && !isGameFinished && score == 0 && correctAnswers == 0 && totalQuestions == 1 &&
        currentPokemon == Some(pokemonList[rnd.target]) && options == ShownOptions(pokemonList, rnd) &&
        !showAnswer && userAnswer == None
      ensures old(ButtonAction(isGameStarted, isGameFinished)).FinishGame? ==>
        isGameFinished && isGameStarted && score == old(score) && correctAnswers == old(correctAnswers) &&
        totalQuestions == old(totalQuestions) && currentPokemon == old(currentPokemon) &&
        options == old(options) && showAnswer == old(showAnswer) && userAnswer == old(userAnswer)
      ensures isGameFinished ==> isGameStarted
      ensures Valid()
      ensures old(Reachable()) ==> Reachable()
    {
      match ButtonAction(isGameStarted, isGameFinished)
      case StartGame => StartGame(rnd);
      case FinishGame => FinishGame();
    }

    /** The percentage the controls show from the page's counters
        (page.tsx:95-96 into GameControls.tsx:43). */
    function ShownPercentage(): (p: Percentage)
      reads this
      ensures p == Bare0 <==> totalQuestions == 0
      ensures p.Fixed? ==> p.value * (totalQuestions as real) == (correctAnswers as real) * 100.0
      ensures Reachable() && p.Fixed? ==> 0.0 <= p.value <= 100.0
    {
      var p := CalculatePercentage(correctAnswers, totalQuestions);
      assert Reachable() && p.Fixed? ==> 0.0 <= p.value <= 100.0 by {
        if Reachable() { PercentageInRange(correctAnswers, totalQuestions); }
      }
      p
    }
  }
}
