# "Who's That Pokémon?" quiz engine, modelled in Dafny

This project models the logic of a browser quiz game. The game loads a
catalog of creatures, asks which of four names belongs to a shown picture,
scores each answer, and reports a percentage at the end. It has three parts:

- `pokemon.dfy` (module `PokemonModel`): the API record and catalog-entry
  types, and `transformPokemonData`. This normaliser maps every API record to
  `{name, image, silhouette}`. It is written as a recursive function on
  sequences. It is proved to keep length and order, and to lose nothing: the
  record can be rebuilt from the entry.
- `controls.dfy` (module `GameControls`): how the control button picks its
  handler and label, and `calculatePercentage`.
- `question.dfy` (module `QuestionGenerator`) and `page.dfy` (module `Page`):
  the page state and its handlers.
  - `QuestionGenerator` specifies `generateQuestion` as functions.
    `CollectOptions` is the distractor loop and `ApplySwaps` is the
    reordering. Lemmas show that the result is four distinct catalog names,
    including the target's name.
  - `Page.GamePage` is a class whose fields are the page's state variables.
    Each handler is a method, and each React setter becomes an assignment in
    the handler's order. So `startGame` resets `totalQuestions` to 0, and the
    question it generates then raises it to 1.
  - The option list is built in a fresh array by a `while` loop that pushes
    names (`CollectDistinctNames`). The array is then reordered in place
    (`SortInPlace`). Both methods are proved against the specification
    functions.

Randomness is an input. A `RandomDraws` value holds three things:
- the target index;
- the stream of distractor indices, one per loop round;
- the exchanges the comparator sort makes.

Every property holds for every such value that meets `Adequate`. `Adequate`
requires that each index lies in the catalog, that each exchange stays within
the four options, and that the draws hit at least four distinct names. The
last condition is exactly what makes the distractor loop end.

The class has two invariants:
- `Valid()` holds after every handler, in any order. It says that
  `score == correctAnswers`, that `showAnswer` holds exactly when an answer is
  recorded, that a started game has a question, and that the current question
  is well formed.
- `Reachable()` holds in every state that the enabled controls lead to. It
  says that finished implies started, and that correct answers plus the
  pending question never exceed the questions asked. `ControlButton` models
  the start/finish button's dispatch and keeps it.

## Model

| member | source | states |
|---|---|---|
| `PokemonModel.TransformOne` | src/app/models/Pokemon.ts:23-27 | the entry has the record's name; image and silhouette are both the record's official-artwork `front_default` |
| `PokemonModel.TransformPokemonData` | src/app/models/Pokemon.ts:22-28 | output has the input's length (so empty gives empty); entry i has record i's name, and its image and silhouette both equal record i's artwork URL |
| `PokemonModel.TransformRoundTrip` | src/app/models/Pokemon.ts:11-27 | each API record is recovered from the entry built at its position, so the map keeps everything it reads, in order |
| `PokemonModel.EntryRoundTrip` | src/app/models/Pokemon.ts:16-27 | every entry whose image equals its silhouette is the normal form of exactly the record rebuilt from it |
| `PokemonModel.TransformAppend` | src/app/models/Pokemon.ts:22-28 | normalising a concatenation is concatenating the normalised parts (element-wise, order-preserving map) |
| `PokemonModel.EmptyArtworkPassesThrough` | src/app/models/Pokemon.ts:25-26 | an empty `front_default` yields empty image and silhouette strings, with no error |
| `GameControls.ButtonAction` | src/app/components/GameControls/GameControls.tsx:31 | the button starts a game iff the game is not started or is finished, and finishes it iff started and not finished |
| `GameControls.ButtonLabel` | src/app/components/GameControls/GameControls.tsx:31-34 | the label is "Start Game" exactly when the handler is start, and "Finish Game" exactly when it is finish |
| `GameControls.CalculatePercentage` | src/app/components/GameControls/GameControls.tsx:24-26 | the bare "0" exactly when no question was asked; otherwise a value v with v * total == correct * 100 |
| `GameControls.PercentageInRange` | src/app/components/GameControls/GameControls.tsx:25 | with no more correct answers than questions, the percentage lies in [0, 100] |
| `GameControls.EightOfTen` | src/app/components/GameControls/GameControls.tsx:25 | 8 correct of 10 gives 80 |
| `QuestionGenerator.CollectOptions` | src/app/page.tsx:61-64 | the distractor loop keeps the seeded list as a prefix (it only appends) and never grows a list of at most four past four |
| `QuestionGenerator.ApplySwaps` | src/app/page.tsx:65 | the reordering keeps the number of options |
| `QuestionGenerator.DrawnNames` | src/app/page.tsx:62 | every name a distractor draw hits is a catalog name |
| `QuestionGenerator.DistinctCard` | src/app/page.tsx:63 | a list that never appends a present name has as many distinct names as entries |
| `QuestionGenerator.CollectOptionsFacts` | src/app/page.tsx:60-64 | the loop keeps its seed as a prefix; it never repeats a name or exceeds four; it adds only drawn names; it stops short of four only when every drawn name is already present |
| `QuestionGenerator.BuiltOptionsWellFormed` | src/app/page.tsx:59-64 | with adequate draws the loop ends with exactly four distinct catalog names, the target's name first |
| `QuestionGenerator.SwappedPermutes` | src/app/page.tsx:65 | one exchange keeps the multiset of names and keeps a repeat-free list repeat-free |
| `QuestionGenerator.ApplySwapsPermutes` | src/app/page.tsx:65 | the reordering is a permutation: same multiset, still no duplicates |
| `QuestionGenerator.ShownOptionsWellFormed` | src/app/page.tsx:58-65 | the stored options are four distinct catalog names, one of them the target's; the target is a catalog entry; the options are a permutation of the loop's list |
| `Page.CollectDistinctNames` | src/app/page.tsx:60-64 | the push loop terminates and leaves in its four-slot array exactly the list the loop specification builds |
| `Page.SortInPlace` | src/app/page.tsx:65 | the array afterwards is the caller's sequence of exchanges applied to its old contents |
| `Page.GamePage.constructor` | src/app/page.tsx:10-21 | every state field at its initial value; the catalog is the normalised API records; both invariants hold |
| `Page.GamePage.GenerateQuestion` | src/app/page.tsx:58-70 | target is the drawn entry; options are well formed and a permutation of the loop's list; `showAnswer` false, `userAnswer` null; `totalQuestions` + 1; score, correct answers and phase flags unchanged; `Valid` kept when called on the page's own catalog |
| `Page.GamePage.StartGame` | src/app/page.tsx:45-52 | started, not finished, score 0, correct answers 0, `totalQuestions` exactly 1, a fresh unanswered question; both invariants hold |
| `Page.GamePage.FinishGame` | src/app/page.tsx:54-56 | only `isGameFinished` changes, to true; `Valid` kept, `Reachable` kept when the game was started |
| `Page.GamePage.HandleAnswer` | src/app/page.tsx:72-79 | records the answer and reveals it; score and correct answers each rise by 1 iff the answer is the current target's name (`Matches`, never true while no entry is shown), else unchanged; nothing else changes; `Reachable` kept when the answer buttons were enabled |
| `Page.GamePage.NextQuestion` | src/app/page.tsx:81-83 | a fresh question, `totalQuestions` + 1, score and correct answers unchanged; both invariants kept |
| `Page.GamePage.ControlButton` | src/app/components/GameControls/GameControls.tsx:30-35 | a running game is finished with every other field unchanged; otherwise a new game starts with counters reset, `totalQuestions` 1 and a fresh unanswered question; afterwards finished implies started; `Reachable` is preserved |
| `Page.GamePage.ShownPercentage` | src/app/page.tsx:94-96 | the percentage shown from the page's counters is "0" iff no question was asked, and lies in [0, 100] in every reachable state |

## Left out

- Catalog loading (src/app/page.tsx:23-43) is left out. That covers the 50 network fetches, `Promise.all`, and the `loading` and `error` flags. The constructor takes the fetched records, and `pokemonList` is a constant from then on. A click during loading is not modelled.
- Rendering is left out: the JSX of page.tsx:85-126, `PokemonQuestion.tsx`, `AnswerFeedback.tsx` and `layout.tsx`. This includes the image/silhouette choice, the disabled buttons and the feedback text. The UI guards are not preconditions. Instead, `HandleAnswer` and `FinishGame` say under which guard they keep `Reachable`.
- `Math.random` is replaced by caller-supplied draws, so its distribution is not modelled. The comparator sort `sort(() => Math.random() - 0.5)` is modelled as a sequence of in-place exchanges. Every permutation of four names is such a sequence, so every possible outcome is covered. The sort's real algorithm and its statistical bias are not modelled.
- `Page.GamePage.GenerateQuestion`: a catalog with fewer than four distinct names, or draws that never hit them, makes the source loop forever. The model excludes this through `Adequate` and does not describe the non-terminating run.
- `Page.GamePage.GenerateQuestion`: an empty catalog makes `randomPokemon.name` at page.tsx:60 throw a TypeError, because line 59 yields `undefined`. `Adequate` (a target index inside the catalog) excludes this, so the partial updates such an exception could leave behind are not modelled.
- `GameControls.CalculatePercentage`: `toFixed(2)` rounding and the decimal string are not modelled. The result is the exact rational `correct * 100 / total`, plus the bare `"0"` case.
- Counters are unbounded naturals. JavaScript numbers lose precision only beyond 2^53, which a session never reaches.
- No `questionsAnswered` counter is modelled. `GameControls` declares the prop but never reads it, and the page never passes it.
- No confirm-before-finish step is modelled: `finishGame` just sets the flag. No empty-string fallback for a missing sprite object is modelled either: the source would throw, and the record type here always has the nested field.
- Build and test configuration (`jest.config.js`, `next.config.ts`, the `*.test.js` files) is not part of this model.
