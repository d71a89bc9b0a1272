# Interview-practice quiz session, modelled in Dafny

The repository is a single-page flashcard widget for interview practice: a
fixed bank of ten question records (five conceptual, three coding, two
scenario questions) and a practice flow that steps through them. The only
logic in it is the session state held by the component
(`langgraph_interview_bot.tsx`): the active view, the current question index,
the score, the answer draft, whether the sample answer is shown, and the set
of question indices whose answer has been revealed. Four handlers change that
state (next, previous, show answer, reset), two more come from the markup
(typing in the answer box, switching the view), and two pure helpers read it
(the current record and the difficulty badge style).

The project has three modules:

- `QuestionBank` (`question_bank.dfy`): the records, the three groups, their
  concatenation `AllQuestions()` of length `N = 10`, and `DifficultyColor`.
- `QuizState` (`quiz_state.dfy`): the session as a value `State`, the
  invariant `Inv` (index in `[0, N)`, revealed indices in `[0, N)`,
  `score == |answered|`), one transition function per handler, `Run` over a
  sequence of user actions, and the lemmas about runs.
- `QuizSession` (`quiz_session.dfy`): the component's state as a class
  `Session` with the six fields, one method per handler (`modifies this`),
  each proved to keep `Valid()` and to move `Model()` exactly as the
  corresponding `QuizState` transition, plus a verified walk-through
  (reveal, next, reveal twice, previous, reset).

Showing the answer earns the point: the draft is never compared with the
sample answer. The model keeps this as written (`RevealIgnoresDraft`).

## Model

| member | source | states |
|---|---|---|
| QuestionBank.AllQuestions | langgraph_interview_bot.tsx:150-154 | the bank has N = 10 records: the five conceptual records first, then the three coding records, then the two scenario records, each group in its own order |
| QuestionBank.AllQuestionsDistinctAndGrouped | langgraph_interview_bot.tsx:12-154 | the record at each index is the one at the group and position the concatenation order assigns to that index, and the ten records are pairwise distinct |
| QuestionBank.DifficultyColor | langgraph_interview_bot.tsx:190-197 | the result is the default style exactly when the label is none of Easy, Medium, Hard; it is always one of the four fixed styles |
| QuestionBank.DifficultyColorInjective | langgraph_interview_bot.tsx:190-197 | a known label and any other label get different styles |
| QuestionBank.BankDifficultiesKnown | langgraph_interview_bot.tsx:17-145 | every record of the bank has a known difficulty, so its badge never falls to the default style |
| QuizState.Initial | langgraph_interview_bot.tsx:5-10 | the starting state (overview, index 0, score 0, empty draft, answer hidden, nothing revealed) satisfies the invariant |
| QuizState.Next | langgraph_interview_bot.tsx:156-162 | below the last index: index + 1, answer hidden, draft cleared; at the last index: no change; score, revealed set and view never change; the invariant is kept |
| QuizState.Prev | langgraph_interview_bot.tsx:164-170 | above index 0: index - 1, answer hidden, draft cleared; at index 0: no change; score, revealed set and view never change; the invariant is kept |
| QuizState.Reveal | langgraph_interview_bot.tsx:172-178 | the answer is shown, the current index joins the revealed set, the score rises by one exactly when the index was not yet revealed, index/draft/view unchanged, invariant kept |
| QuizState.Reset | langgraph_interview_bot.tsx:180-186 | the result is the starting state except for the view, which is kept, whatever the prior state |
| QuizState.RunKeepsInv | langgraph_interview_bot.tsx:156-186 | every sequence of user actions from a valid state ends in a valid state |
| QuizState.ReachableStatesValid | langgraph_interview_bot.tsx:188 | from the starting state, after any actions, the current index is within the bank, so looking up the current question never goes out of bounds |
| QuizState.ScoreBounded | langgraph_interview_bot.tsx:349 | in a valid state 0 <= score <= N, the bound shown as score/N |
| QuizState.NavigationKeepsScore | langgraph_interview_bot.tsx:156-170 | any run of next/previous clicks leaves score, revealed set and view unchanged |
| QuizState.NextRepeated | langgraph_interview_bot.tsx:156-162 | k clicks on next from a valid state reach min(index + k, N - 1) |
| QuizState.PrevRepeated | langgraph_interview_bot.tsx:164-170 | k clicks on previous from a valid state reach max(index - k, 0) |
| QuizState.RevealIdempotent | langgraph_interview_bot.tsx:172-178 | revealing twice has the effect of revealing once |
| QuizState.RevealRepeated | langgraph_interview_bot.tsx:172-178 | k >= 1 reveals in a row equal one reveal, so they add at most one point |
| QuizState.RevealIgnoresDraft | langgraph_interview_bot.tsx:172-178 | the outcome of a reveal does not depend on the draft text: no grading takes place |
| QuizState.ResetRestoresInitial | langgraph_interview_bot.tsx:180-186 | reset followed by returning to the overview gives exactly the starting state |
| QuizState.Progress | langgraph_interview_bot.tsx:385 | the progress fraction (index + 1) / N lies in (0, 1] and is 1 exactly at the last question |
| QuizSession.Session.constructor | langgraph_interview_bot.tsx:5-10 | a new session holds the initial values and is valid |
| QuizSession.Session.HandleNextQuestion | langgraph_interview_bot.tsx:156-162 | keeps Valid(); the new state is Next of the old one, with the guarded increment and clearing spelled out field by field |
| QuizSession.Session.HandlePrevQuestion | langgraph_interview_bot.tsx:164-170 | keeps Valid(); the new state is Prev of the old one, with the guarded decrement and clearing spelled out field by field |
| QuizSession.Session.HandleShowAnswer | langgraph_interview_bot.tsx:172-178 | keeps Valid(); shows the answer, inserts the index, and adds one point only when the index was not yet revealed |
| QuizSession.Session.ResetQuiz | langgraph_interview_bot.tsx:180-186 | from any state, index 0, score 0, empty revealed set, answer hidden, empty draft, view untouched, and Valid() |
| QuizSession.Session.SetUserAnswer | langgraph_interview_bot.tsx:399-404 | the draft becomes the typed text verbatim and nothing else changes |
| QuizSession.Session.SetCurrentSection | langgraph_interview_bot.tsx:218-230 | the view becomes the chosen one and nothing else changes |
| QuizSession.Session.GetCurrentQuestion | langgraph_interview_bot.tsx:188 | in a valid session the current record is a record of the bank, the one at the group and position its index maps to, with a non-default badge |
| QuizSession.Session.ScoreDisplay | langgraph_interview_bot.tsx:349 | the displayed pair is (score, N) with 0 <= score <= N |

## Left out

- Rendering: the markup, the styling strings other than the four badge styles, the icons (an external library) and the static overview and tips text are presentation only.
- The question and answer prose, including the embedded code snippets: each text is an opaque identifier naming its group and position; difficulty and category labels are kept.
- React's state semantics: each handler is one atomic update of the session, so setter batching, re-render scheduling and the handlers' reads of `score` and `answeredQuestions` from the last render are not modelled.
- QuizState.Progress: states the fraction (index + 1) / N as an exact real; the floating-point percentage the progress bar is given (times 100) is not modelled.
- The buttons' `disabled` attributes (previous at index 0, next at the last index) and the hiding of the "Show Answer" button once shown: these only restrict which clicks are possible, and the handlers' own guards already keep the state valid for every click sequence.
- The view is a three-valued datatype; the source keeps it as one of the strings overview, practice, tips and only ever sets those three.
