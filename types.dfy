/** The records of the quiz: questions with their answer key, recorded answers,
    and the session state that the test component keeps. */
module Types {

  datatype Option<+T> = None | Some(value: T)

  /** An answer tuple: two or three slots, one per left-column prompt (А, Б, В).
      Slot values are right-column item values; 0 means "no choice yet". */
  type Slots = s: seq<int> | |s| == 2 || |s| == 3 witness [0, 0]

  /** `label` is a Dafny keyword, so the item label is called `caption` here. */
  datatype MatchingOption = MatchingOption(caption: string, value: int)

  datatype Column = Column(title: string, items: seq<MatchingOption>)

  /** A matching question; the length of `correctAnswer` says whether two or three
      prompts are to be matched. */
  datatype Question = Question(
    id: string,
    number: int,
    text: string,
    imageUrl: Option<string>,
    leftColumn: Column,
    rightColumn: Column,
    correctAnswer: Slots)

  /** What the session records for one question. */
  datatype UserAnswer = UserAnswer(answer: Slots, isCorrect: bool)

  /** `Review` is declared by the source but never entered. */
  datatype Mode = Test | Review | Mistakes

  /** The quiz session: cursor, recorded answers keyed by an int, the results flag,
      elapsed seconds, the mode and the list of mistakes of the last full pass. */
  datatype TestState = TestState(
    currentQuestion: int,
    answers: map<int, UserAnswer>,
    showResults: bool,
    timeSpent: nat,
    mode: Mode,
    mistakeQuestions: seq<int>)
}
