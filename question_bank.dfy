/** The fixed question bank of the interview-practice widget: three groups of
    question records (conceptual, coding, scenarios) concatenated, in that
    order, into the one flat sequence that the practice flow navigates, and the
    mapping from a record's difficulty label to the badge style shown beside it.

    The question and answer prose is content, not logic: each text is kept only
    as an opaque identifier naming which record it belongs to. */
module QuestionBank {

  /** The three groups the bank is assembled from. */
  datatype Group = ConceptualGroup | CodingGroup | ScenarioGroup

  /** Stands for the prose of one question or one sample answer. */
  datatype Prose =
    | QuestionText(group: Group, position: nat)
    | AnswerText(group: Group, position: nat)

  /** One question record: its prose, its difficulty label and its category label.
      The difficulty is a free string, as in the source; the bank only uses
      "Easy", "Medium" and "Hard". */
  datatype QuestionRecord = QuestionRecord(
    question: Prose,
    answer: Prose,
    difficulty: string,
    category: string)

  function Record(g: Group, position: nat, difficulty: string, category: string): QuestionRecord
  {
    QuestionRecord(QuestionText(g, position), AnswerText(g, position), difficulty, category)
  }

  function Conceptual(): seq<QuestionRecord>
  {
    [ Record(ConceptualGroup, 0, "Medium", "Core Concepts"),
      Record(ConceptualGroup, 1, "Easy", "Architecture"),
      Record(ConceptualGroup, 2, "Medium", "State Management"),
      Record(ConceptualGroup, 3, "Hard", "Advanced Features"),
      Record(ConceptualGroup, 4, "Medium", "Control Flow") ]
  }

  function Coding(): seq<QuestionRecord>
  {
    [ Record(CodingGroup, 0, "Easy", "Basic Implementation"),
      Record(CodingGroup, 1, "Medium", "Conditional Logic"),
      Record(CodingGroup, 2, "Hard", "Error Handling") ]
  }

  function Scenarios(): seq<QuestionRecord>
  {
    [ Record(ScenarioGroup, 0, "Hard", "System Design"),
      Record(ScenarioGroup, 1, "Hard", "Multi-Agent Systems") ]
  }

  /** Number of questions in the bank. */
  const N: nat := 10

  /** The flat bank: every conceptual question, then every coding question,
      then every scenario question, each group in its own order. */
  function AllQuestions(): (qs: seq<QuestionRecord>)
    ensures |qs| == N == |Conceptual()| + |Coding()| + |Scenarios()|
    ensures forall i :: 0 <= i < |Conceptual()| ==> qs[i] == Conceptual()[i]
    ensures forall j :: 0 <= j < |Coding()| ==> qs[|Conceptual()| + j] == Coding()[j]
    ensures forall j :: 0 <= j < |Scenarios()| ==>
              qs[|Conceptual()| + |Coding()| + j] == Scenarios()[j]
  {
    Conceptual() + Coding() + Scenarios()
  }

  /** The group a bank index falls in, read off the concatenation order. */
  function GroupAt(i: int): Group
  {
    if i < |Conceptual()| then ConceptualGroup
    else if i < |Conceptual()| + |Coding()| then CodingGroup
    else ScenarioGroup
  }

  /** The position inside its group of a bank index. */
  function PositionAt(i: int): int
  {
    if i < |Conceptual()| then i
    else if i < |Conceptual()| + |Coding()| then i - |Conceptual()|
    else i - |Conceptual()| - |Coding()|
  }

  /** The record at each bank index is the one at PositionAt(i) of group
      GroupAt(i); hence the ten records are pairwise distinct, and navigating
      by index visits each question once per pass. */
  lemma AllQuestionsDistinctAndGrouped()
    ensures forall i :: 0 <= i < N ==>
              AllQuestions()[i].question == QuestionText(GroupAt(i), PositionAt(i))
    ensures forall i, j :: 0 <= i < j < N ==> AllQuestions()[i] != AllQuestions()[j]
  {
    var qs := AllQuestions();
    forall i | 0 <= i < N
      ensures qs[i].question == QuestionText(GroupAt(i), PositionAt(i))
    {
      if i < 5 {
        assert qs[i] == Conceptual()[i];
      } else if i < 8 {
        assert qs[i] == Coding()[i - 5];
      } else {
        assert qs[i] == Scenarios()[i - 8];
      }
    }
    forall i, j | 0 <= i < j < N
      ensures qs[i] != qs[j]
    {
      assert qs[i].question != qs[j].question;
    }
  }

  const EasyColor: string := "text-green-600 bg-green-100"
  const MediumColor: string := "text-yellow-600 bg-yellow-100"
  const HardColor: string := "text-red-600 bg-red-100"
  const DefaultColor: string := "text-gray-600 bg-gray-100"

  predicate IsKnownDifficulty(d: string)
  {
    d == "Easy" || d == "Medium" || d == "Hard"
  }

  /** Badge style for a difficulty label: a fixed style for each of the three
      known labels and a neutral default for any other string. */
  function DifficultyColor(d: string): (c: string)
    ensures c == DefaultColor <==> !IsKnownDifficulty(d)
    ensures c in {EasyColor, MediumColor, HardColor, DefaultColor}
  {
    match d
    case "Easy" => EasyColor
    case "Medium" => MediumColor
    case "Hard" => HardColor
    case _ => DefaultColor
  }

  /** Labels that differ get different badge styles, unless both fall to the
      default: the mapping is injective on the known labels. */
  lemma DifficultyColorInjective(d1: string, d2: string)
    requires IsKnownDifficulty(d1) && d1 != d2
    ensures DifficultyColor(d1) != DifficultyColor(d2)
  {
  }

  /** Every record of the bank carries a known difficulty, so its badge never
      falls to the default style. */
  lemma BankDifficultiesKnown(i: int)
    requires 0 <= i < N
    ensures IsKnownDifficulty(AllQuestions()[i].difficulty)
    ensures DifficultyColor(AllQuestions()[i].difficulty) != DefaultColor
  {
  }
}
