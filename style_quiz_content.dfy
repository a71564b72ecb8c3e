/** The eight-question style quiz (front/components/StyleQuizContent.tsx):
    answers are kept by question id, the Next button is enabled only once
    the current question has a truthy answer, and after the last question
    three of the answers are scored and the best-scoring style profile is
    shown. The profiles' texts and recommendations are left out; a profile
    is named by its key. */
module StyleQuizContent {
  import opened Common
  import opened Lists

  /** What `handleAnswer` stores: an option or picture label, the list of
      a multiple-choice question, or a slider number. */
  datatype Answer = Text(s: string) | Choices(items: seq<string>) | Number(n: int)

  datatype Profile = MinimalistChic | UrbanExplorer | RomanticDreamer | ClassicElegance

  /** `Object.keys(scores)`: the order the score object lists its keys. */
  const ProfileKeys: seq<Profile> := [MinimalistChic, UrbanExplorer, RomanticDreamer, ClassicElegance]

  /** The position of a profile in `ProfileKeys`. */
  function Rank(p: Profile): (r: nat)
    ensures r < |ProfileKeys| && ProfileKeys[r] == p
  {
    match p
    case MinimalistChic => 0
    case UrbanExplorer => 1
    case RomanticDreamer => 2
    case ClassicElegance => 3
  }

  const QuestionCount := 8

  datatype Scores = Scores(minimalist: int, urban: int, romantic: int, classic: int)

  function ScoreOf(s: Scores, p: Profile): int {
    match p
    case MinimalistChic => s.minimalist
    case UrbanExplorer => s.urban
    case RomanticDreamer => s.romantic
    case ClassicElegance => s.classic
  }

  /** `answers[q] === text` */
  predicate Said(answers: map<int, Answer>, q: int, text: string) {
    q in answers && answers[q] == Text(text)
  }

  /** The profile the personality answer (question 1) gives 3 points to. */
  function PersonalityVote(answers: map<int, Answer>): Option<Profile> {
    if Said(answers, 1, "Minimalist and clean") then Some(MinimalistChic)
    else if Said(answers, 1, "Adventurous and bold") then Some(UrbanExplorer)
    else if Said(answers, 1, "Romantic and feminine") then Some(RomanticDreamer)
    else if Said(answers, 1, "Classic and timeless") then Some(ClassicElegance)
    else None
  }

  /** The profile the colour answer (question 3) gives 2 points to. */
  function ColorVote(answers: map<int, Answer>): Option<Profile> {
    if Said(answers, 3, "Neutral Tones") || Said(answers, 3, "Black & White") then Some(MinimalistChic)
    else if Said(answers, 3, "Bold & Bright") then Some(UrbanExplorer)
    else if Said(answers, 3, "Soft Pastels") then Some(RomanticDreamer)
    else if Said(answers, 3, "Earth Tones") then Some(ClassicElegance)
    else None
  }

  /** The profile the fit answer (question 4) gives 1 point to. */
  function FitVote(answers: map<int, Answer>): Option<Profile> {
    if Said(answers, 4, "Loose and comfortable") then Some(MinimalistChic)
    else if Said(answers, 4, "Edgy and asymmetrical") then Some(UrbanExplorer)
    else if Said(answers, 4, "Flowy and feminine") then Some(RomanticDreamer)
    else if Said(answers, 4, "Fitted and tailored") || Said(answers, 4, "Structured and sharp") then Some(ClassicElegance)
    else None
  }

  function Points(vote: Option<Profile>, p: Profile, weight: int): int {
    if vote == Some(p) then weight else 0
  }

  /** The points the three scored answers give to `p`. */
  function ScoreFor(answers: map<int, Answer>, p: Profile): int {
    Points(PersonalityVote(answers), p, 3) + Points(ColorVote(answers), p, 2) + Points(FitVote(answers), p, 1)
  }

  /** The scores `calculateResults` adds up. Each of the three scored
      questions gives its points to at most one profile, so no profile
      gets more than 6 and the four scores add up to at most 6. */
  function ScoreAnswers(answers: map<int, Answer>): (s: Scores)
    ensures forall p :: 0 <= ScoreOf(s, p) <= 6
    ensures s.minimalist + s.urban + s.romantic + s.classic <= 6
  {
    Scores(ScoreFor(answers, MinimalistChic), ScoreFor(answers, UrbanExplorer),
           ScoreFor(answers, RomanticDreamer), ScoreFor(answers, ClassicElegance))
  }

  /** The `reduce` callback: the running key stays only when it scores
      strictly more than the next one. */
  function Pick(s: Scores, a: Profile, b: Profile): Profile {
    if ScoreOf(s, a) > ScoreOf(s, b) then a else b
  }

  /** `Object.keys(scores).reduce((a, b) => scores[a] > scores[b] ? a : b)`
      over the four keys in their listed order: a profile of the highest
      score, and on a tie the one listed last. */
  function TopProfile(s: Scores): (r: Profile)
    ensures forall p :: ScoreOf(s, p) <= ScoreOf(s, r)
    ensures forall p :: ScoreOf(s, p) == ScoreOf(s, r) ==> Rank(p) <= Rank(r)
  {
    Pick(s, Pick(s, Pick(s, MinimalistChic, UrbanExplorer), RomanticDreamer), ClassicElegance)
  }

  /** Of two profiles with the same score, the one listed first never
      wins. */
  lemma TieGoesToLater(s: Scores, p: Profile, q: Profile)
    requires ScoreOf(s, p) == ScoreOf(s, q) && Rank(p) < Rank(q)
    ensures TopProfile(s) != p
  {
  }

  /** `q` scores less than `p`, or as much and is listed before it. */
  predicate Outscored(s: Scores, q: Profile, p: Profile) {
    ScoreOf(s, q) < ScoreOf(s, p) || (ScoreOf(s, q) == ScoreOf(s, p) && Rank(q) < Rank(p))
  }

  /** A profile that outscores every other one wins. */
  lemma OutscoringAllWins(s: Scores, p: Profile)
    requires forall q :: q != p ==> Outscored(s, q, p)
    ensures TopProfile(s) == p
  {
    var r := TopProfile(s);
    assert ScoreOf(s, p) <= ScoreOf(s, r);
    assert r == p || Outscored(s, r, p);
  }

  /** Scores made of a personality vote for `p` worth 3, a colour vote
      worth 2 and a fit vote worth 1: `p` wins unless the colour and the
      fit both vote for one profile listed after it, which then ties it
      at 3 and wins. */
  lemma VotesDecide(s: Scores, p: Profile, cv: Option<Profile>, fv: Option<Profile>)
    requires forall q :: ScoreOf(s, q) == Points(Some(p), q, 3) + Points(cv, q, 2) + Points(fv, q, 1)
    ensures TopProfile(s) == p <==> !(cv.Some? && cv == fv && Rank(cv.value) > Rank(p))
  {
    if cv.Some? && cv == fv && Rank(cv.value) > Rank(p) {
      var q := cv.value;
      assert ScoreOf(s, q) == 3 == ScoreOf(s, p);
      TieGoesToLater(s, p, q);
    } else {
      forall q | q != p
        ensures Outscored(s, q, p)
      {
        assert ScoreOf(s, q) == Points(cv, q, 2) + Points(fv, q, 1);
      }
      OutscoringAllWins(s, p);
    }
  }

  /** The personality answer decides the profile unless the colour and
      the fit answers both vote for one profile listed after it. */
  lemma PersonalityDecides(answers: map<int, Answer>, p: Profile)
    requires PersonalityVote(answers) == Some(p)
    ensures TopProfile(ScoreAnswers(answers)) == p <==>
      !(ColorVote(answers).Some? && ColorVote(answers) == FitVote(answers) && Rank(ColorVote(answers).value) > Rank(p))
  {
    var s := ScoreAnswers(answers);
    forall q
      ensures ScoreOf(s, q) == Points(Some(p), q, 3) + Points(ColorVote(answers), q, 2) + Points(FitVote(answers), q, 1)
    {
      assert ScoreOf(s, q) == ScoreFor(answers, q);
    }
    VotesDecide(s, p, ColorVote(answers), FitVote(answers));
  }

  /** "Creative and artistic" gives no points, so with no scored colour or
      fit either, every score is 0 and the last key, classic elegance,
      wins. */
  lemma CreativeAloneIsClassic(answers: map<int, Answer>)
    requires Said(answers, 1, "Creative and artistic")
    requires ColorVote(answers).None? && FitVote(answers).None?
    ensures TopProfile(ScoreAnswers(answers)) == ClassicElegance
  {
    var s := ScoreAnswers(answers);
    assert ScoreOf(s, ClassicElegance) == 0;
  }

  /** JavaScript truthiness of a stored answer: the empty text and the
      number 0 are falsy; a list is truthy even when empty. */
  predicate AnswerTruthy(a: Answer) {
    match a
    case Text(s) => s != ""
    case Number(n) => n != 0
    case Choices(_) => true
  }

  /** The Next button's `!currentAnswer || (Array.isArray(currentAnswer)
      && currentAnswer.length === 0)` negated: a truthy answer, and a
      non-empty list. */
  predicate Answered(a: Option<Answer>) {
    a.Some? && AnswerTruthy(a.value) && !(a.value.Choices? && a.value.items == [])
  }

  /** `currentAnswer || 5`: what the slider shows. */
  function SliderShown(a: Option<Answer>): (v: int)
    ensures a.None? ==> v == 5
    ensures a.Some? && a.value.Number? && a.value.n != 0 ==> v == a.value.n
  {
    if a.Some? && a.value.Number? && a.value.n != 0 then a.value.n else 5
  }

  /** An untouched slider shows 5, but Next stays disabled until it is
      moved: the shown value is not an answer. */
  lemma UntouchedSliderBlocksNext()
    ensures SliderShown(None) == 5 && !Answered(None)
  {
  }

  /** `currentAnswer || []` for a multiple-choice question. */
  function CurrentChoices(a: Option<Answer>): seq<string> {
    if a.Some? && a.value.Choices? then a.value.items else []
  }

  function Lookup(answers: map<int, Answer>, q: int): Option<Answer> {
    if q in answers then Some(answers[q]) else None
  }

  class Quiz {
    /** The index of the question shown; its id is one more. */
    var currentQuestion: int
    var answers: map<int, Answer>
    var showResults: bool
    var selectedProfile: Option<Profile>

    predicate Valid()
      reads this
    {
      0 <= currentQuestion < QuestionCount && (showResults <==> selectedProfile.Some?)
    }

    /** The answer to the question on screen. */
    function CurrentAnswer(): Option<Answer>
      reads this
    {
      Lookup(answers, currentQuestion + 1)
    }

    constructor ()
      ensures Valid()
      ensures currentQuestion == 0 && answers == map[] && !showResults && selectedProfile == None
    {
      currentQuestion := 0;
      answers := map[];
      showResults := false;
      selectedProfile := None;
    }

    /** `handleAnswer(questionId, answer)`: that answer replaces the
        question's old one; the others stay. */
    method HandleAnswer(questionId: int, answer: Answer)
      modifies this`answers
      ensures answers == old(answers)[questionId := answer]
    {
      answers := answers[questionId := answer];
    }

    /** A click on an option of a multiple-choice question: the option is
        taken out of the current list when it is in it, appended otherwise;
        no other option changes. */
    method ToggleOption(option: string)
      modifies this`answers
      ensures var q := currentQuestion + 1;
        && q in answers && answers[q].Choices?
        && answers == old(answers)[q := Choices(Toggle(CurrentChoices(old(CurrentAnswer())), option))]
        && (option in answers[q].items <==> option !in CurrentChoices(old(CurrentAnswer())))
        && forall o :: o != option ==> (o in answers[q].items <==> o in CurrentChoices(old(CurrentAnswer())))
    {
      var current := CurrentChoices(CurrentAnswer());
      HandleAnswer(currentQuestion + 1, Choices(Toggle(current, option)));
    }

    /** `calculateResults()`: the top profile of the scored answers is
        shown. */
    method CalculateResults()
      modifies this`selectedProfile, this`showResults
      ensures selectedProfile == Some(TopProfile(ScoreAnswers(answers))) && showResults
    {
      selectedProfile := Some(TopProfile(ScoreAnswers(answers)));
      showResults := true;
    }

    /** `handleNext()`: the next question, or the results after the last
        one. */
    method Next()
      requires Valid()
      modifies this`currentQuestion, this`selectedProfile, this`showResults
      ensures Valid()
      ensures old(currentQuestion) < QuestionCount - 1 ==>
        && currentQuestion == old(currentQuestion) + 1
        && showResults == old(showResults) && selectedProfile == old(selectedProfile)
      ensures old(currentQuestion) == QuestionCount - 1 ==>
        && currentQuestion == old(currentQuestion)
        && showResults && selectedProfile == Some(TopProfile(ScoreAnswers(answers)))
    {
      if currentQuestion < QuestionCount - 1 {
        currentQuestion := currentQuestion + 1;
      } else {
        CalculateResults();
      }
    }

    /** `handlePrevious()`: one question back, never before the first. */
    method Previous()
      requires Valid()
      modifies this`currentQuestion
      ensures Valid()
      ensures old(currentQuestion) > 0 ==> currentQuestion == old(currentQuestion) - 1
      ensures old(currentQuestion) == 0 ==> currentQuestion == 0
    {
      if currentQuestion > 0 {
        currentQuestion := currentQuestion - 1;
      }
    }

    /** `resetQuiz()`: first question, no answers, no results. */
    method Reset()
      modifies this
      ensures Valid()
      ensures currentQuestion == 0 && answers == map[] && !showResults && selectedProfile == None
    {
      currentQuestion := 0;
      answers := map[];
      showResults := false;
      selectedProfile := None;
    }
  }
}
