# Physics quiz session — a Dafny model

This project models the logic of a browser quiz of "matching" questions. Each
question has two or three prompts (А, Б, В). For each prompt the user picks one
value from a right-hand column. A test component keeps the session state:

- the cursor;
- the recorded answers, keyed by an int;
- the "results shown" flag;
- the elapsed seconds;
- the mode (`test`, the unused `review`, or `mistakes`);
- the list of mistakes from the last full pass.

The model covers how the handlers change that state and what the screens derive
from it. It also covers the helpers of the question display: the answer-edit
callback, the image url rule, the preview cells and the select options.

Modules:

- `Types` (`types.dfy`): the records of `src/types/test.ts`. An answer tuple is
  `Slots`, a `seq<int>` of length 2 or 3.
- `Decimal` (`decimal.dfy`): decimal rendering of a natural number (what a
  template literal prints) and the value a digit string denotes.
- `QuestionView` (`question.dfy`): `src/components/Question/Question.tsx`.
- `TestComponent` (`test_component.dfy`):
  `src/components/TestComponent/TestComponent.tsx`. It holds the pure helpers
  and the class `Component`. The class's field `testState` is the session
  record, which every handler replaces wholesale, as `setTestState` does.
  `showAnswers` is the results screen's toggle. `questions`, the question bank,
  is a constructor parameter.

Behaviour of the code that the model keeps as written:

- The question display always renders three selects, even for a two-slot
  question. Editing the third select on a two-slot tuple assigns one past the
  end of a JavaScript array, which appends. So `HandleAnswerChange` can return a
  three-slot tuple for a two-slot question. Scoring then ignores the third slot
  (`TwoSlotKeyIgnoresThirdSlot`).
- In mistakes mode `handleAnswer` stores the entry under the cursor position,
  not under the absolute question index (`Recorded`). The display and the grid
  read it back under the absolute index (`CurrentAnswer`, `QuestionStatus`).
  `RecordedAnswerHiddenInMistakesMode` and `RecordedAnswerOnGrid` state what
  follows from it.
- A preview cell shows the em-dash for a zero slot and also for a slot the tuple
  does not have (`answer[k] || '—'` on a missing element).
- On a wrong answer, the comparison view marks a user slot beyond the key's
  length as mismatched, because `undefined` differs from every number.
- A three-slot key compared with a two-slot tuple never matches, because the
  missing slot is `undefined`.

## Model

| member | source | states |
|---|---|---|
| `TestComponent.IsCorrect` | src/components/TestComponent/TestComponent.tsx:59-79 | the answer is correct iff it has at least the key's number of slots and agrees with the key on each of them, in order |
| `TestComponent.IsCorrectIsEquality` | src/components/TestComponent/TestComponent.tsx:59-79 | for a tuple as long as the key, correct iff the tuple equals the key |
| `TestComponent.TwoSlotKeyIgnoresThirdSlot` | src/components/TestComponent/TestComponent.tsx:60-67 | for a two-slot key, setting or appending a third slot never changes the score |
| `TestComponent.InitialState` | src/components/TestComponent/TestComponent.tsx:9-16 | initial session: cursor 0, no answers, answering screen, 0 seconds, test mode, no mistakes |
| `TestComponent.TotalQuestions` | src/components/TestComponent/TestComponent.tsx:100-105 | the active sequence is the mistake list in mistakes mode and the whole bank otherwise; when the mistake list is a strictly increasing list of question indices it is never longer than the bank |
| `TestComponent.ActiveIndex` | src/components/TestComponent/TestComponent.tsx:492-497 | with the cursor in range, the absolute index of the question on screen is a valid index into the bank (the mistake entry at the cursor in mistakes mode, the cursor otherwise) |
| `TestComponent.CurrentQuestion` | src/components/TestComponent/TestComponent.tsx:93-98 | the question on screen is a question of the bank, taken through the mistake list in mistakes mode |
| `TestComponent.CurrentAnswer` | src/components/TestComponent/TestComponent.tsx:491-498 | the working answer is the entry stored under the absolute index; without one, zeros as long as the key |
| `TestComponent.Recorded` | src/components/TestComponent/TestComponent.tsx:81-90 | recording adds or overwrites the entry keyed by the cursor position with the tuple and its score; every other entry and every other field stay as they were |
| `TestComponent.QuestionStatus` | src/components/TestComponent/TestComponent.tsx:198-213 | 'current' iff the index is the cursor; otherwise 'unanswered' iff the looked-up key (absolute in mistakes mode) has no entry, 'correct' iff its entry is correct, else 'incorrect' |
| `TestComponent.QuestionNumber` | src/components/TestComponent/TestComponent.tsx:215-220 | a grid position's number is the position plus one, and in mistakes mode the absolute question index at that position plus one |
| `TestComponent.NumberOfCurrentQuestion` | src/components/TestComponent/TestComponent.tsx:215-220 | the grid number at the cursor lies in 1 .. bank size and is the absolute index of the question on screen plus one |
| `TestComponent.MistakeGridNumbersIncrease` | src/components/TestComponent/TestComponent.tsx:215-220 | in mistakes mode the grid numbers strictly increase from left to right |
| `TestComponent.RecordedAnswerShownInTestMode` | src/components/TestComponent/TestComponent.tsx:81-90 | outside mistakes mode, the answer just recorded is the working answer handed back to the display |
| `TestComponent.RecordedAnswerHiddenInMistakesMode` | src/components/TestComponent/TestComponent.tsx:492-497 | in mistakes mode the display gets the recorded answer back iff the absolute index equals the cursor position; otherwise it keeps getting what it got before the edit |
| `TestComponent.RecordedAnswerOnGrid` | src/components/TestComponent/TestComponent.tsx:198-207 | recording changes another grid button only where that button's key equals the cursor position, and there it shows the new score; outside mistakes mode it changes no other button |
| `TestComponent.MistakeListCharacterized` | src/components/TestComponent/TestComponent.tsx:142-157 | the mistake list is strictly increasing and holds exactly the indices below the bank size whose answer is missing or incorrect |
| `TestComponent.MistakesAndCorrectPartition` | src/components/TestComponent/TestComponent.tsx:145-150 | the mistakes plus the correctly answered questions make up all questions |
| `TestComponent.ResultsCorrect` | src/components/TestComponent/TestComponent.tsx:340-341 | the results figure total − number of mistakes lies in [0, total] when the mistakes are a strictly increasing list of question indices |
| `TestComponent.ResultsCountCorrectAnswers` | src/components/TestComponent/TestComponent.tsx:340-341 | after a scored pass, the results figure is the number of correctly answered questions |
| `TestComponent.TenQuestionExample` | src/components/TestComponent/TestComponent.tsx:142-150 | ten questions with 0–4 correct and 5–9 unanswered give the mistake list [5, 6, 7, 8, 9] |
| `TestComponent.MismatchFlags` | src/components/TestComponent/TestComponent.tsx:287-297 | one mark per stored slot; a slot is marked iff the answer is incorrect and the slot differs from the key or lies beyond it |
| `TestComponent.MismatchFlagsOfScoredAnswer` | src/components/TestComponent/TestComponent.tsx:287-297 | for a freshly scored tuple as long as the key, some slot is marked iff the answer is incorrect, and exactly the differing slots are marked |
| `TestComponent.ComparisonExample` | src/components/TestComponent/TestComponent.tsx:287-297 | key [2,3,1]: [2,3,1] is correct, [2,1,3] is not and has exactly slots 1 and 2 marked |
| `TestComponent.AnswerRow` | src/components/TestComponent/TestComponent.tsx:287-301 | the results "your answer" row has one cell per stored slot; a cell is the em-dash iff its slot is 0, and otherwise shows the slot's value |
| `TestComponent.FormatTime` | src/components/TestComponent/TestComponent.tsx:188-192 | the text is the decimal form of seconds div 60 (no leading zero unless it is 0), a colon, then exactly two digits for seconds mod 60 (below 60) |
| `TestComponent.FormatTimeInjective` | src/components/TestComponent/TestComponent.tsx:188-192 | different elapsed times are formatted differently |
| `Decimal.NatToStringCorrect` | src/components/TestComponent/TestComponent.tsx:191 | the decimal text of n is a non-empty digit string denoting n that starts with '0' only for n = 0; it has one digit iff n < 10, and two for 10 ≤ n < 100 |
| `TestComponent.Component.constructor` | src/components/TestComponent/TestComponent.tsx:9-18 | the component starts in the initial state with the answers hidden; the invariant holds, and the cursor is in range for a non-empty bank |
| `TestComponent.Component.Tick` | src/components/TestComponent/TestComponent.tsx:42-52 | while answering, a tick adds one second and changes nothing else; on the results screen it changes nothing |
| `TestComponent.Component.HandleAnswer` | src/components/TestComponent/TestComponent.tsx:54-91 | the new state is `Recorded` of the old one; the invariant and the cursor range are kept |
| `TestComponent.Component.NextQuestion` | src/components/TestComponent/TestComponent.tsx:107-124 | below total − 1 the cursor moves up by one; otherwise the results are shown, in test mode with the mistake list rebuilt, in other modes with it untouched; a cursor in range stays in range |
| `TestComponent.Component.PrevQuestion` | src/components/TestComponent/TestComponent.tsx:126-133 | above 0 the cursor moves down by one; at 0 or below nothing changes; a cursor in range stays in range |
| `TestComponent.Component.GoToQuestion` | src/components/TestComponent/TestComponent.tsx:135-140 | only the cursor changes, to the given position; the cursor is in range iff the position was in the active sequence |
| `TestComponent.Component.CalculateResults` | src/components/TestComponent/TestComponent.tsx:142-157 | results shown and the mistake list replaced by exactly the missing or incorrect indices in ascending order; nothing else changes |
| `TestComponent.Component.StartMistakesReview` | src/components/TestComponent/TestComponent.tsx:159-174 | with no mistakes nothing changes; otherwise the state is cursor 0, no answers, answering screen, 0 seconds, mistakes mode and the same mistake list, with the answers hidden and the cursor in range |
| `TestComponent.Component.RestartTest` | src/components/TestComponent/TestComponent.tsx:176-186 | whatever the prior state, the state becomes the initial state, with the answers hidden |
| `TestComponent.Component.ToggleShowAnswers` | src/components/TestComponent/TestComponent.tsx:194-196 | the answer review's visibility flips; the session state is untouched |
| `QuestionView.HandleAnswerChange` | src/components/Question/Question.tsx:27-31 | the new tuple has the edited slot set to the value and every other old slot unchanged; it keeps the old length, or gains a slot when the edited slot was one past the end |
| `QuestionView.ImageUrl` | src/components/Question/Question.tsx:33-43 | '' for a missing or empty reference; a non-empty reference is returned as is when it starts with the base path, else prefixed with it, so the result starts with the base path |
| `QuestionView.ImageUrlIdempotent` | src/components/Question/Question.tsx:33-43 | resolving an already resolved non-empty reference gives the same url |
| `QuestionView.SlotCell` | src/components/Question/Question.tsx:152-154 | a cell shows the em-dash iff its slot is 0 or absent, and the slot's value otherwise |
| `QuestionView.PreviewRow` | src/components/Question/Question.tsx:143-157 | the preview row always has three cells, each following the em-dash rule |
| `QuestionView.SelectOptions` | src/components/Question/Question.tsx:101-106 | an answer select offers 0 and then the right-column values in order, 1 + number-of-items options, and nothing else |

## Left out

- Rendering (JSX, CSS classes, the grid markup, the answers review list, the
  revealed correct-answer column) is UI. Only the values the screens compute
  are modelled.
- The scroll effects and `scrollToTop` are DOM side effects.
- Interval scheduling is timer concurrency. A tick is one atomic transition.
- TestComponent.Component.Tick: the "no tick on the results screen" rule is a
  test inside the tick. In the source the interval is simply not installed
  while results are shown.
- The `alert` of an empty mistake review is an I/O side effect. Only "state
  unchanged" is modelled.
- The percentage and its colour bands use floating-point rounding. Only the
  integer "correct" figure is modelled.
- The image `onError` handler that hides the image is DOM manipulation.
- The base path (`import.meta.env.BASE_URL`) is build configuration. It is the
  `base` parameter of `ImageUrl`.
- The question data module is not part of this model. The bank is the
  `questions` parameter.
- React batching and stale closures (handlers reading `testState` rather than
  `prev`) are not modelled. Each handler is one sequential transition.
- Select captions are not modelled: the "choose an answer" placeholder text and
  each option's text are left out. Only the option values are kept.
- `Number(e.target.value)` is not modelled. The value is already an integer.
- `TestResults` (`src/types/test.ts:38-43`) is not modelled. The component
  never builds one.
- TestComponent.Component.HandleAnswer requires a cursor in range. Without it,
  `getCurrentQuestion` yields `undefined` and the source throws on
  `.correctAnswer`. The display is rendered only with a valid cursor.
- `QuestionNumber` requires the grid position to lie in the mistake list in
  mistakes mode. The grid only offers such positions. Past the end the source
  computes `NaN`, which is not modelled.
- QuestionView.HandleAnswerChange requires the slot to be 0, 1 or 2, the
  indices of the three selects.
