/** The practice-session state machine as values: the session record, the
    transition each user action causes, and what holds of every run of actions.
    The class in QuizSession is proved to follow these transitions. */
module QuizState {
  import opened QuestionBank

  /** The three top-level views. */
  datatype Section = Overview | Practice | Tips

  /** The session record: active view, index of the current question, score,
      the answer draft, whether the sample answer is shown, and the indices
      whose answer has ever been revealed. */
  datatype State = State(
    section: Section,
    current: int,
    score: int,
    draft: string,
    shown: bool,
    answered: set<int>)

  /** The state the widget starts in. */
  function Initial(): (s: State)
    ensures Inv(s) && s.score == 0 && s.answered == {}
  {
    State(Overview, 0, 0, "", false, {})
  }

  /** What holds of every reachable state: the index is inside the bank,
      every revealed index is inside the bank, and the score counts exactly
      the revealed indices. */
  ghost predicate Inv(s: State)
  {
    && 0 <= s.current < N
    && (forall i :: i in s.answered ==> 0 <= i < N)
    && s.score == |s.answered|
  }

  /** "Next": one question forward and a cleared answer area, unless the
      current question is the last, where nothing changes. */
  function Next(s: State): (t: State)
    ensures t.score == s.score && t.answered == s.answered && t.section == s.section
    ensures s.current < N - 1 ==> t.current == s.current + 1 && !t.shown && t.draft == ""
    ensures s.current == N - 1 ==> t == s
    ensures Inv(s) ==> Inv(t)
  {
    if s.current < N - 1 then s.(current := s.current + 1, shown := false, draft := "")
    else s
  }

  /** "Previous": one question back and a cleared answer area, unless the
      current question is the first, where nothing changes. */
  function Prev(s: State): (t: State)
    ensures t.score == s.score && t.answered == s.answered && t.section == s.section
    ensures s.current > 0 ==> t.current == s.current - 1 && !t.shown && t.draft == ""
    ensures s.current == 0 ==> t == s
    ensures Inv(s) ==> Inv(t)
  {
    if s.current > 0 then s.(current := s.current - 1, shown := false, draft := "")
    else s
  }

  /** "Show answer": the answer is shown, and the first reveal of a question
      earns one point. The draft is never looked at. */
  function Reveal(s: State): (t: State)
    ensures t.shown && t.current == s.current && t.draft == s.draft && t.section == s.section
    ensures t.answered == s.answered + {s.current}
    ensures s.current !in s.answered ==> t.score == s.score + 1
    ensures s.current in s.answered ==> t.score == s.score
    ensures Inv(s) ==> Inv(t)
  {
    if s.current !in s.answered then
      s.(shown := true, answered := s.answered + {s.current}, score := s.score + 1)
    else
      s.(shown := true)
  }

  /** "Reset": every practice field back to its starting value; the active
      view is kept. */
  function Reset(s: State): (t: State)
    ensures t == Initial().(section := s.section)
    ensures Inv(t)
  {
    s.(current := 0, score := 0, answered := {}, shown := false, draft := "")
  }

  /** One user action. */
  datatype Event =
    | NextQuestion
    | PrevQuestion
    | ShowAnswer
    | ResetQuiz
    | EditAnswer(text: string)
    | GoToSection(target: Section)

  predicate IsNavigation(e: Event)
  {
    e.NextQuestion? || e.PrevQuestion?
  }

  function Step(s: State, e: Event): State
  {
    match e
    case NextQuestion => Next(s)
    case PrevQuestion => Prev(s)
    case ShowAnswer => Reveal(s)
    case ResetQuiz => Reset(s)
    case EditAnswer(text) => s.(draft := text)
    case GoToSection(target) => s.(section := target)
  }

  /** The state after the actions `evs`, taken one at a time from `s`. */
  function Run(s: State, evs: seq<Event>): State
    decreases |evs|
  {
    if evs == [] then s else Run(Step(s, evs[0]), evs[1..])
  }

  function Repeat(e: Event, k: nat): (evs: seq<Event>)
    ensures |evs| == k && forall i :: 0 <= i < k ==> evs[i] == e
  {
    if k == 0 then [] else [e] + Repeat(e, k - 1)
  }

  /** Every action keeps the invariant. */
  lemma StepKeepsInv(s: State, e: Event)
    requires Inv(s)
    ensures Inv(Step(s, e))
  {
  }

  /** Whatever the user does, from any valid state, the state stays valid: in
      particular the current index never leaves [0, N), so looking up the
      current question never goes out of bounds. */
  lemma {:induction false} RunKeepsInv(s: State, evs: seq<Event>)
    requires Inv(s)
    ensures Inv(Run(s, evs))
    decreases |evs|
  {
    if evs != [] {
      StepKeepsInv(s, evs[0]);
      RunKeepsInv(Step(s, evs[0]), evs[1..]);
    }
  }

  /** Every state reachable from the start of the widget is valid. */
  lemma ReachableStatesValid(evs: seq<Event>)
    ensures Inv(Run(Initial(), evs))
    ensures 0 <= Run(Initial(), evs).current < |AllQuestions()|
  {
    RunKeepsInv(Initial(), evs);
  }

  /** A set of bank indices has at most N members. */
  lemma {:induction false} IndexSetBounded(a: set<int>, n: nat)
    requires forall i :: i in a ==> 0 <= i < n
    ensures |a| <= n
    decreases n
  {
    if n == 0 {
      assert forall x :: x !in a;
      assert a == {};
    } else {
      var rest := a - {n - 1};
      IndexSetBounded(rest, n - 1);
      assert a <= rest + {n - 1};
    }
  }

  /** The score shown as "score/N" is between 0 and N. */
  lemma ScoreBounded(s: State)
    requires Inv(s)
    ensures 0 <= s.score <= N
  {
    IndexSetBounded(s.answered, N);
  }

  /** Any run of Next/Previous clicks leaves the score, the revealed set and
      the active view as they were. */
  lemma {:induction false} NavigationKeepsScore(s: State, evs: seq<Event>)
    requires forall i :: 0 <= i < |evs| ==> IsNavigation(evs[i])
    ensures Run(s, evs).score == s.score
    ensures Run(s, evs).answered == s.answered
    ensures Run(s, evs).section == s.section
    decreases |evs|
  {
    if evs != [] {
      NavigationKeepsScore(Step(s, evs[0]), evs[1..]);
    }
  }

  function Min(a: int, b: int): int
  {
    if a <= b then a else b
  }

  /** k clicks on "Next" advance the index by k, stopping at the last question. */
  lemma {:induction false} NextRepeated(s: State, k: nat)
    requires Inv(s)
    ensures Run(s, Repeat(NextQuestion, k)).current == Min(s.current + k, N - 1)
    decreases k
  {
    if k > 0 {
      var evs := Repeat(NextQuestion, k);
      assert evs[1..] == Repeat(NextQuestion, k - 1);
      NextRepeated(Next(s), k - 1);
    }
  }

  /** k clicks on "Previous" move the index back by k, stopping at the first question. */
  lemma {:induction false} PrevRepeated(s: State, k: nat)
    requires Inv(s)
    ensures Run(s, Repeat(PrevQuestion, k)).current == if s.current - k < 0 then 0 else s.current - k
    decreases k
  {
    if k > 0 {
      var evs := Repeat(PrevQuestion, k);
      assert evs[1..] == Repeat(PrevQuestion, k - 1);
      PrevRepeated(Prev(s), k - 1);
    }
  }

  /** Revealing twice is the same as revealing once. */
  lemma RevealIdempotent(s: State)
    ensures Reveal(Reveal(s)) == Reveal(s)
  {
  }

  /** Clicking "Show answer" k >= 1 times in a row has the effect of one click:
      the question earns at most one point however often it is revealed. */
  lemma {:induction false} RevealRepeated(s: State, k: nat)
    requires k >= 1
    ensures Run(s, Repeat(ShowAnswer, k)) == Reveal(s)
    ensures Run(s, Repeat(ShowAnswer, k)).score <= s.score + 1
    decreases k
  {
    var evs := Repeat(ShowAnswer, k);
    assert evs[1..] == Repeat(ShowAnswer, k - 1);
    if k == 1 {
      assert Run(Reveal(s), []) == Reveal(s);
    } else {
      RevealRepeated(Reveal(s), k - 1);
      RevealIdempotent(s);
    }
  }

  /** The point for a reveal does not depend on the draft: two states that
      differ only in their draft score the same and reveal the same indices. */
  lemma RevealIgnoresDraft(s: State, other: string)
    ensures Reveal(s.(draft := other)) == Reveal(s).(draft := other)
  {
  }

  /** Reset brings any state back to the starting state, except for the view. */
  lemma ResetRestoresInitial(s: State)
    ensures Reset(s).(section := Overview) == Initial()
  {
  }

  /** How far through the bank the current question is, as a fraction. */
  function Progress(s: State): (r: real)
    requires Inv(s)
    ensures 0.0 < r <= 1.0
    ensures s.current == N - 1 <==> r == 1.0
  {
    (s.current + 1) as real / N as real
  }
}
