/** The style-quiz page (front/app/style-quiz/page.tsx): eight questions
    keyed "1" to "8", a Next button guarded by `canProceed`, and a
    rule-based result naming one of four style profiles with three fixed
    recommendations each. Pictures, labels and match reasons are left out. */
module StyleQuizPage {
  import opened Common
  import Lists
  import StyleQuizContent

  type Answer = StyleQuizContent.Answer

  datatype Kind = Single | Multiple | Visual | Slider

  const QuestionIds: seq<string> := ["1", "2", "3", "4", "5", "6", "7", "8"]
  const Kinds: seq<Kind> := [Single, Multiple, Visual, Visual, Single, Single, Multiple, Slider]
  const QuestionCount := 8

  datatype Recommendation = Recommendation(id: string, name: string, price: int, shopName: string, category: string)

  datatype QuizResult = QuizResult(styleProfile: string, personality: seq<Answer>, preferences: Answer,
                                   recommendations: seq<Recommendation>)

  const MinimalistPicks := [
    Recommendation("1", "Essential White Button Shirt", 89, "Urban Threads", "Tops"),
    Recommendation("2", "Tailored Black Trousers", 120, "Fashion District", "Bottoms"),
    Recommendation("3", "Minimalist Leather Bag", 150, "Luxury Galleria", "Accessories")]
  const UrbanPicks := [
    Recommendation("4", "Oversized Graphic Hoodie", 75, "Urban Threads", "Tops"),
    Recommendation("5", "Cargo Pants", 95, "Urban Threads", "Bottoms"),
    Recommendation("6", "High-Top Sneakers", 140, "Urban Threads", "Footwear")]
  const RomanticPicks := [
    Recommendation("7", "Floral Midi Dress", 110, "Fashion District", "Dresses"),
    Recommendation("8", "Delicate Gold Necklace", 65, "Jewelry Palace", "Jewelry"),
    Recommendation("9", "Pastel Cardigan", 85, "Fashion District", "Outerwear")]
  const ClassicPicks := [
    Recommendation("10", "Classic Trench Coat", 200, "Luxury Galleria", "Outerwear"),
    Recommendation("11", "Silk Blouse", 130, "Fashion District", "Tops"),
    Recommendation("12", "Pearl Earrings", 90, "Jewelry Palace", "Jewelry")]

  function Lookup(answers: map<string, Answer>, key: string): Option<Answer> {
    if key in answers then Some(answers[key]) else None
  }

  /** `answers[key] || fallback` */
  function OrDefault(answers: map<string, Answer>, key: string, fallback: Answer): Answer {
    if key in answers && StyleQuizContent.AnswerTruthy(answers[key]) then answers[key] else fallback
  }

  function Personality(answers: map<string, Answer>): Answer {
    OrDefault(answers, "1", StyleQuizContent.Text("classic"))
  }

  function Lifestyle(answers: map<string, Answer>): Answer {
    OrDefault(answers, "2", StyleQuizContent.Choices([]))
  }

  function ColorPalette(answers: map<string, Answer>): Answer {
    OrDefault(answers, "3", StyleQuizContent.Text("neutral"))
  }

  function StyleInspiration(answers: map<string, Answer>): Answer {
    OrDefault(answers, "4", StyleQuizContent.Text("preppy"))
  }

  predicate IsMinimalist(answers: map<string, Answer>) {
    Personality(answers) == StyleQuizContent.Text("minimalist") && ColorPalette(answers) == StyleQuizContent.Text("neutral")
  }

  predicate IsUrban(answers: map<string, Answer>) {
    Personality(answers) == StyleQuizContent.Text("adventurous") && StyleInspiration(answers) == StyleQuizContent.Text("streetwear")
  }

  predicate IsRomantic(answers: map<string, Answer>) {
    Personality(answers) == StyleQuizContent.Text("romantic") && ColorPalette(answers) == StyleQuizContent.Text("pastel")
  }

  /** `generateRecommendations(answers)`: the first matching rule names the
      profile and its three picks; when no rule matches the profile is
      Classic Elegance. The result echoes the personality answer and the
      lifestyle list, with their fallbacks. */
  function GenerateRecommendations(answers: map<string, Answer>): (r: QuizResult)
    ensures |r.recommendations| == 3
    ensures r.styleProfile == "Minimalist Chic" <==> IsMinimalist(answers)
    ensures r.styleProfile == "Urban Explorer" <==> IsUrban(answers)
    ensures r.styleProfile == "Romantic Dreamer" <==> IsRomantic(answers)
    ensures r.styleProfile == "Classic Elegance" <==> !IsMinimalist(answers) && !IsUrban(answers) && !IsRomantic(answers)
    ensures r.personality == [Personality(answers)] && r.preferences == Lifestyle(answers)
  {
    var (profile, picks) :=
      if IsMinimalist(answers) then ("Minimalist Chic", MinimalistPicks)
      else if IsUrban(answers) then ("Urban Explorer", UrbanPicks)
      else if IsRomantic(answers) then ("Romantic Dreamer", RomanticPicks)
      else ("Classic Elegance", ClassicPicks);
    QuizResult(profile, [Personality(answers)], Lifestyle(answers), picks)
  }

  /** With nothing answered the fallbacks apply: personality "classic"
      matches no rule, so the result is Classic Elegance. */
  lemma NothingAnsweredIsClassic()
    ensures GenerateRecommendations(map[]).styleProfile == "Classic Elegance"
    ensures GenerateRecommendations(map[]).recommendations == ClassicPicks
  {
  }

  /** A missing colour answer counts as "neutral": a minimalist with no
      colour chosen still gets Minimalist Chic. */
  lemma MissingColorCountsAsNeutral(answers: map<string, Answer>)
    requires "1" in answers && answers["1"] == StyleQuizContent.Text("minimalist")
    requires "3" !in answers
    ensures GenerateRecommendations(answers).styleProfile == "Minimalist Chic"
  {
  }

  /** The four profiles recommend twelve different products. */
  lemma PicksAreDisjoint()
    ensures var all := MinimalistPicks + UrbanPicks + RomanticPicks + ClassicPicks;
      forall i, j :: 0 <= i < j < |all| ==> all[i].id != all[j].id
  {
  }

  /** The answer shape each question kind stores: an option value for
      single and visual questions, a list for multiple choice, a number
      for the slider. */
  predicate Fits(k: Kind, a: Answer) {
    match k
    case Multiple => a.Choices?
    case Slider => a.Number?
    case _ => a.Text?
  }

  predicate WellTyped(answers: map<string, Answer>) {
    forall i :: 0 <= i < QuestionCount && QuestionIds[i] in answers ==> Fits(Kinds[i], answers[QuestionIds[i]])
  }

  lemma IdsDistinct()
    ensures forall i, j :: 0 <= i < j < QuestionCount ==> QuestionIds[i] != QuestionIds[j]
  {
  }

  /** Storing an answer of the right shape for one question keeps every
      stored answer well shaped. */
  lemma StoreKeepsWellTyped(answers: map<string, Answer>, q: nat, a: Answer)
    requires WellTyped(answers) && q < QuestionCount && Fits(Kinds[q], a)
    ensures WellTyped(answers[QuestionIds[q] := a])
  {
    IdsDistinct();
  }

  class QuizPage {
    var currentQuestion: int
    var answers: map<string, Answer>
    var isCompleted: bool
    var result: Option<QuizResult>
    var sliderValue: int

    predicate Valid()
      reads this
    {
      0 <= currentQuestion < QuestionCount && (isCompleted <==> result.Some?) && WellTyped(answers)
    }

    constructor ()
      ensures Valid()
      ensures currentQuestion == 0 && answers == map[] && !isCompleted && result == None && sliderValue == 5
    {
      currentQuestion := 0;
      answers := map[];
      isCompleted := false;
      result := None;
      sliderValue := 5;
    }

    /** `canProceed()`: a multiple-choice question needs a truthy answer
        with a non-zero length; any other question needs an answer at
        all. */
    function CanProceed(): (ok: bool)
      requires Valid()
      reads this
      ensures Kinds[currentQuestion] != Multiple ==> (ok <==> QuestionIds[currentQuestion] in answers)
      ensures Kinds[currentQuestion] == Multiple ==>
        (ok <==> QuestionIds[currentQuestion] in answers && answers[QuestionIds[currentQuestion]].items != [])
    {
      var a := Lookup(answers, QuestionIds[currentQuestion]);
      if Kinds[currentQuestion] == Multiple then
        a.Some? && StyleQuizContent.AnswerTruthy(a.value) &&
        match a.value
        case Choices(items) => |items| > 0
        case Text(s) => |s| > 0
        case Number(_) => false
      else a.Some?
    }

    /** A click on an option of a single or visual question stores its
        value. */
    method Choose(value: string)
      requires Valid() && Kinds[currentQuestion] != Multiple && Kinds[currentQuestion] != Slider
      modifies this`answers
      ensures Valid()
      ensures answers == old(answers)[QuestionIds[currentQuestion] := StyleQuizContent.Text(value)]
    {
      StoreKeepsWellTyped(answers, currentQuestion, StyleQuizContent.Text(value));
      answers := answers[QuestionIds[currentQuestion] := StyleQuizContent.Text(value)];
    }

    /** A click on an option of a multiple-choice question: the value is
        taken out of the list when it is in it, appended otherwise. */
    method Toggle(value: string)
      requires Valid() && Kinds[currentQuestion] == Multiple
      modifies this`answers
      ensures Valid()
      ensures var q := QuestionIds[currentQuestion];
        var before := if q in old(answers) then old(answers)[q].items else [];
        && q in answers
        && answers == old(answers)[q := StyleQuizContent.Choices(Lists.Toggle(before, value))]
        && (value in answers[q].items <==> value !in before)
        && forall v :: v != value ==> (v in answers[q].items <==> v in before)
    {
      var q := QuestionIds[currentQuestion];
      var current := if q in answers then answers[q].items else [];
      var updated := Lists.Toggle(current, value);
      StoreKeepsWellTyped(answers, currentQuestion, StyleQuizContent.Choices(updated));
      answers := answers[q := StyleQuizContent.Choices(updated)];
    }

    /** Moving the slider stores its number and shows it. */
    method Slide(value: int)
      requires Valid() && Kinds[currentQuestion] == Slider
      modifies this`answers, this`sliderValue
      ensures Valid()
      ensures sliderValue == value
      ensures answers == old(answers)[QuestionIds[currentQuestion] := StyleQuizContent.Number(value)]
    {
      sliderValue := value;
      StoreKeepsWellTyped(answers, currentQuestion, StyleQuizContent.Number(value));
      answers := answers[QuestionIds[currentQuestion] := StyleQuizContent.Number(value)];
    }

    /** `handleNext()`: the next question, or the result after the last
        one. The slider reset only fires when leaving a slider question
        for another question, and the only slider is the last question, so
        it never fires. */
    method Next()
      requires Valid()
      modifies this`currentQuestion, this`sliderValue, this`result, this`isCompleted
      ensures Valid()
      ensures sliderValue == old(sliderValue)
      ensures old(currentQuestion) < QuestionCount - 1 ==>
        && currentQuestion == old(currentQuestion) + 1
        && result == old(result) && isCompleted == old(isCompleted)
      ensures old(currentQuestion) == QuestionCount - 1 ==>
        && currentQuestion == old(currentQuestion)
        && isCompleted && result == Some(GenerateRecommendations(answers))
    {
      if currentQuestion < QuestionCount - 1 {
        var leaving := Kinds[currentQuestion];
        currentQuestion := currentQuestion + 1;
        if leaving == Slider {
          sliderValue := 5;
        }
      } else {
        result := Some(GenerateRecommendations(answers));
        isCompleted := true;
      }
    }

    /** `handlePrevious()`: one question back, never before the first. */
    method Previous()
      requires Valid()
      modifies this`currentQuestion
      ensures Valid()
      ensures old(currentQuestion) > 0 ==> currentQuestion == old(currentQuestion) - 1
      ensures old(currentQuestion) == 0 ==> currentQuestion == 0
    {
      if currentQuestion > 0 {
        currentQuestion := currentQuestion - 1;
      }
    }

    /** "Retake Quiz": back to the first question with no answers and no
        result; the slider keeps its last position. */
    method Retake()
      modifies this`currentQuestion, this`answers, this`isCompleted, this`result
      ensures Valid()
      ensures currentQuestion == 0 && answers == map[] && !isCompleted && result == None
    {
      currentQuestion := 0;
      answers := map[];
      isCompleted := false;
      result := None;
    }
  }

  /** The slider question is the last one and no other question is a
      slider. */
  lemma OnlyLastIsSlider()
    ensures forall i :: 0 <= i < QuestionCount ==> (Kinds[i] == Slider <==> i == QuestionCount - 1)
  {
  }
}
