/**
 * The seven-question health survey of client/src/pages/profile/SurveyWizard.tsx: a
 * question cursor, the answers keyed by question id, one update rule per question type,
 * and the submission that marks the survey completed.
 */
module SurveyWizard {
  import opened Wrappers
  import opened Collections
  import opened Sorting
  import opened Session

  datatype QuestionType = MultipleChoice | Slider | Checkbox

  /** A question; `options` are the values a choice or checkbox question offers. */
  datatype Question = Question(id: string, kind: QuestionType, options: seq<string>, min: real, max: real, step: real)

  /** An answer, of the shape its question's handler stores. */
  datatype Answer = Choice(value: string) | Choices(values: seq<string>) | Number(number: real)

  const Questions: seq<Question> := [
    Question("age", MultipleChoice, ["18-24", "25-34", "35-44", "45-54", "55-64", "65+"], 0.0, 0.0, 0.0),
    Question("activity", MultipleChoice, ["sedentary", "light", "moderate", "active", "extreme"], 0.0, 0.0, 0.0),
    Question("health_goals", Checkbox, ["weight_loss", "muscle_gain", "energy", "sleep", "stress", "immunity", "general"], 0.0, 0.0, 0.0),
    Question("sleep", Slider, [], 3.0, 12.0, 0.5),
    Question("stress", Slider, [], 1.0, 10.0, 1.0),
    Question("diet", MultipleChoice, ["omnivore", "pescatarian", "vegetarian", "vegan", "keto", "paleo", "gluten_free", "other"], 0.0, 0.0, 0.0),
    Question("allergies", Checkbox, ["none", "dairy", "nuts", "gluten", "soy", "shellfish", "eggs", "other"], 0.0, 0.0, 0.0)
  ]

  const LastQuestion: nat := |Questions| - 1

  /** The answer shape each question type's handler stores. */
  predicate Fits(kind: QuestionType, a: Answer)
  {
    match kind
    case MultipleChoice => a.Choice?
    case Checkbox => a.Choices?
    case Slider => a.Number?
  }

  /** Every answer is keyed by a question's id and has the shape of that question's handler. */
  predicate WellTyped(answers: map<string, Answer>)
  {
    forall id :: id in answers ==> exists i :: 0 <= i < |Questions| && Questions[i].id == id && Fits(Questions[i].kind, answers[id])
  }

  /** The question ids are distinct, so a key names one question. */
  lemma QuestionIdsDistinct()
    ensures forall i, j :: 0 <= i < j < |Questions| ==> Questions[i].id != Questions[j].id
  {
  }

  /** `answers[id] || []`: the values checked so far for a checkbox question. */
  function Checked(answers: map<string, Answer>, id: string): seq<string>
  {
    if id in answers && answers[id].Choices? then answers[id].values else []
  }

  function Other(value: string): string -> bool
  {
    (v: string) => v != value
  }

  /**
   * The new list of a checkbox question: checking appends the value, duplicates and
   * all; unchecking drops every occurrence of it.
   */
  function Toggled(current: seq<string>, value: string, checked: bool): (r: seq<string>)
    ensures checked ==> r == current + [value]
    ensures !checked ==> value !in r && IsSubsequence(r, current)
    ensures !checked ==> forall v :: v != value ==> (v in r <==> v in current)
    ensures !checked ==> multiset(r) == multiset(current)[value := 0]
  {
    if checked then current + [value]
    else
      FilterCounts(current, Other(value));
      Filter(current, Other(value))
  }

  /** Checking and then unchecking a value leaves the list without any occurrence of it. */
  lemma {:induction false} CheckThenUncheck(current: seq<string>, value: string)
    ensures Toggled(Toggled(current, value, true), value, false) == Toggled(current, value, false)
  {
    FilterAppend(current, value, Other(value));
  }

  /** Unchecking a value that was never checked changes nothing. */
  lemma UncheckAbsent(current: seq<string>, value: string)
    requires value !in current
    ensures Toggled(current, value, false) == current
  {
    FilterAll(current, Other(value));
  }

  /**
   * The number a slider shows: its answer once there is one, its declared minimum
   * until then.
   */
  function SliderShows(answers: map<string, Answer>, q: Question): (r: real)
    ensures q.id !in answers ==> r == q.min
    ensures q.id in answers && answers[q.id].Number? ==> r == answers[q.id].number
  {
    if q.id in answers && answers[q.id].Number? then answers[q.id].number
    else if q.id in answers then 0.0
    else q.min
  }

  class Survey {
    var currentQuestionIndex: nat
    var answers: map<string, Answer>
    var user: Option<AuthUser>
    var navigatedTo: Option<string>

    ghost predicate Valid()
      reads this
    {
      currentQuestionIndex <= LastQuestion && WellTyped(answers)
    }

    function Current(): Question
      requires Valid()
      reads this
    {
      Questions[currentQuestionIndex]
    }

    constructor (signedIn: Option<AuthUser>)
      ensures Valid()
      ensures currentQuestionIndex == 0 && answers == map[] && user == signedIn && navigatedTo == None
    {
      currentQuestionIndex := 0;
      answers := map[];
      user := signedIn;
      navigatedTo := None;
    }

    /** `handleSingleAnswer`: the current question's answer becomes `value`. */
    method HandleSingleAnswer(value: string)
      requires Valid() && Current().kind == MultipleChoice
      modifies this`answers
      ensures Valid()
      ensures answers == old(answers)[Current().id := Choice(value)]
      ensures forall id :: id != Current().id ==>
                (id in answers <==> id in old(answers)) && (id in answers ==> answers[id] == old(answers)[id])
    {
      answers := answers[Current().id := Choice(value)];
    }

    /** `handleMultiAnswer`: the current question's list gains or loses `value`. */
    method HandleMultiAnswer(value: string, checked: bool)
      requires Valid() && Current().kind == Checkbox
      modifies this`answers
      ensures Valid()
      ensures answers == old(answers)[Current().id := Choices(Toggled(Checked(old(answers), Current().id), value, checked))]
      ensures forall id :: id != Current().id ==>
                (id in answers <==> id in old(answers)) && (id in answers ==> answers[id] == old(answers)[id])
    {
      var current := Checked(answers, Current().id);
      answers := answers[Current().id := Choices(Toggled(current, value, checked))];
    }

    /** `handleSliderAnswer`: the current question's answer becomes `value`. */
    method HandleSliderAnswer(value: real)
      requires Valid() && Current().kind == Slider
      modifies this`answers
      ensures Valid()
      ensures answers == old(answers)[Current().id := Number(value)]
      ensures SliderShows(answers, Current()) == value
      ensures forall id :: id != Current().id ==>
                (id in answers <==> id in old(answers)) && (id in answers ==> answers[id] == old(answers)[id])
    {
      answers := answers[Current().id := Number(value)];
    }

    /** `handleSubmit`: the survey is marked completed and the shop opens. */
    method HandleSubmit()
      requires Valid()
      modifies this`user, this`navigatedTo
      ensures Valid()
      ensures user == UpdateUser(old(user), UserPatch(None, None, None, Some(true)))
      ensures user.Some? ==> user.value.surveyCompleted && user.value.profileCompleted == old(user).value.profileCompleted
      ensures navigatedTo == Some("/products")
    {
      user := UpdateUser(user, UserPatch(None, None, None, Some(true)));
      navigatedTo := Some("/products");
    }

    /**
     * `goToNextQuestion`: advances whether or not the current question is answered;
     * the last question submits instead. The answers are never touched.
     */
    method GoToNextQuestion()
      requires Valid()
      modifies this`currentQuestionIndex, this`user, this`navigatedTo
      ensures Valid()
      ensures old(currentQuestionIndex) < LastQuestion ==>
        currentQuestionIndex == old(currentQuestionIndex) + 1 && user == old(user) && navigatedTo == old(navigatedTo)
      ensures old(currentQuestionIndex) == LastQuestion ==>
        currentQuestionIndex == LastQuestion &&
        user == UpdateUser(old(user), UserPatch(None, None, None, Some(true))) && navigatedTo == Some("/products")
      ensures answers == old(answers)
    {
      if currentQuestionIndex < LastQuestion {
        currentQuestionIndex := currentQuestionIndex + 1;
      } else {
        HandleSubmit();
      }
    }

    /** `goToPreviousQuestion`: back one question; nothing at the first. The answers are never touched. */
    method GoToPreviousQuestion()
      requires Valid()
      modifies this`currentQuestionIndex
      ensures Valid()
      ensures currentQuestionIndex == if old(currentQuestionIndex) > 0 then old(currentQuestionIndex) - 1 else 0
      ensures answers == old(answers)
    {
      if currentQuestionIndex > 0 {
        currentQuestionIndex := currentQuestionIndex - 1;
      }
    }
  }
}
