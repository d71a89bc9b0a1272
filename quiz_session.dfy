/** The interview-practice widget's session: the six pieces of state it holds
    and the handlers that update them in response to clicks and typing. Each
    handler is one atomic update; every one keeps Valid() and moves the state
    exactly as the corresponding transition of QuizState does. */
module QuizSession {
  import opened QuestionBank
  import opened QuizState

  class Session {
    var currentSection: Section
    var currentQuestion: int
    var score: int
    var userAnswer: string
    var showAnswer: bool
    var answeredQuestions: set<int>

    /** The session's fields as one value. */
    ghost function Model(): State
      reads this
    {
      State(currentSection, currentQuestion, score, userAnswer, showAnswer, answeredQuestions)
    }

    ghost predicate Valid()
      reads this
    {
      Inv(Model())
    }

    /** The starting state: overview screen, first question, nothing scored. */
    constructor ()
      ensures Valid() && Model() == Initial()
      ensures currentSection == Overview && currentQuestion == 0 && score == 0
      ensures userAnswer == "" && !showAnswer && answeredQuestions == {}
    {
      currentSection := Overview;
      currentQuestion := 0;
      score := 0;
      userAnswer := "";
      showAnswer := false;
      answeredQuestions := {};
    }

    method HandleNextQuestion()
      requires Valid()
      modifies this
      ensures Valid() && Model() == Next(old(Model()))
      ensures old(currentQuestion) < N - 1 ==>
                currentQuestion == old(currentQuestion) + 1 && !showAnswer && userAnswer == ""
      ensures old(currentQuestion) == N - 1 ==> Model() == old(Model())
      ensures score == old(score) && answeredQuestions == old(answeredQuestions)
      ensures currentSection == old(currentSection)
    {
      if currentQuestion < |AllQuestions()| - 1 {
        currentQuestion := currentQuestion + 1;
        showAnswer := false;
        userAnswer := "";
      }
    }

    method HandlePrevQuestion()
      requires Valid()
      modifies this
      ensures Valid() && Model() == Prev(old(Model()))
      ensures old(currentQuestion) > 0 ==>
                currentQuestion == old(currentQuestion) - 1 && !showAnswer && userAnswer == ""
      ensures old(currentQuestion) == 0 ==> Model() == old(Model())
      ensures score == old(score) && answeredQuestions == old(answeredQuestions)
      ensures currentSection == old(currentSection)
    {
      if currentQuestion > 0 {
        currentQuestion := currentQuestion - 1;
        showAnswer := false;
        userAnswer := "";
      }
    }

    method HandleShowAnswer()
      requires Valid()
      modifies this
      ensures Valid() && Model() == Reveal(old(Model()))
      ensures showAnswer
      ensures answeredQuestions == old(answeredQuestions) + {old(currentQuestion)}
      ensures score == if old(currentQuestion) in old(answeredQuestions) then old(score) else old(score) + 1
      ensures currentQuestion == old(currentQuestion) && userAnswer == old(userAnswer)
      ensures currentSection == old(currentSection)
    {
      showAnswer := true;
      if currentQuestion !in answeredQuestions {
        answeredQuestions := answeredQuestions + {currentQuestion};
        score := score + 1;
      }
    }

    method ResetQuiz()
      modifies this
      ensures Valid() && Model() == Reset(old(Model()))
      ensures currentQuestion == 0 && score == 0 && answeredQuestions == {}
      ensures !showAnswer && userAnswer == ""
      ensures currentSection == old(currentSection)
    {
      currentQuestion := 0;
      score := 0;
      answeredQuestions := {};
      showAnswer := false;
      userAnswer := "";
    }

    /** Typing in the answer box replaces the draft verbatim. */
    method SetUserAnswer(text: string)
      requires Valid()
      modifies this
      ensures Valid() && Model() == Step(old(Model()), EditAnswer(text))
      ensures userAnswer == text
      ensures Model().(draft := old(userAnswer)) == old(Model())
    {
      userAnswer := text;
    }

    /** Switching the view touches nothing else. */
    method SetCurrentSection(target: Section)
      requires Valid()
      modifies this
      ensures Valid() && Model() == Step(old(Model()), GoToSection(target))
      ensures currentSection == target
      ensures Model().(section := old(currentSection)) == old(Model())
    {
      currentSection := target;
    }

    /** The record on screen: always a record of the bank, at the current
        index, and its difficulty badge is never the default style. */
    function GetCurrentQuestion(): (q: QuestionRecord)
      reads this
      requires Valid()
      ensures q in AllQuestions()
      ensures q.question == QuestionText(GroupAt(currentQuestion), PositionAt(currentQuestion))
      ensures DifficultyColor(q.difficulty) != DefaultColor
    {
      BankDifficultiesKnown(currentQuestion);
      AllQuestionsDistinctAndGrouped();
      AllQuestions()[currentQuestion]
    }

    /** The score shown next to the trophy, as "score/N", stays within 0..N. */
    method ScoreDisplay() returns (shown: int, total: int)
      requires Valid()
      ensures shown == score && total == |AllQuestions()|
      ensures 0 <= shown <= total
    {
      ScoreBounded(Model());
      shown, total := score, |AllQuestions()|;
    }
  }

  /** The walk-through of a fresh session: reveal, next, reveal twice,
      previous, reset. */
  method Walkthrough()
  {
    var s := new Session();
    s.HandleShowAnswer();
    assert s.score == 1 && s.answeredQuestions == {0};
    s.HandleNextQuestion();
    assert s.currentQuestion == 1 && !s.showAnswer;
    s.HandleShowAnswer();
    s.HandleShowAnswer();
    assert s.score == 2;
    s.HandlePrevQuestion();
    assert s.currentQuestion == 0 && !s.showAnswer && s.answeredQuestions == {0, 1};
    s.ResetQuiz();
    assert s.Model() == Initial();
  }
}
