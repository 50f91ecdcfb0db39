/**
 * The onboarding answers and the context state that holds them
 * (src/screens/onboarding/OnboardingContext.tsx).
 */
module OnboardingContext {
  import opened Wrappers

  /** `OnboardingAnswers`: the sign-up fields are optional, the quiz lists are not. */
  datatype Answers = Answers(
    name: Option<string>,
    email: Option<string>,
    password: Option<string>,
    birthday: Option<string>,
    cuisines: seq<string>,
    diets: seq<string>,
    recipeTypes: seq<string>,
    allergies: seq<string>,
    allergyOther: Option<string>)

  const DefaultAnswers := Answers(Some(""), Some(""), Some(""), Some(""), [], [], [], [], Some(""))

  /** The screens the onboarding screens navigate to. */
  datatype Route = ToDiets | ToRecipes | ToAllergies | ToCompletion

  /** The provider's `answers` state, which the screens replace through `setAnswers`. */
  class AnswersStore {
    var answers: Answers

    constructor ()
      ensures answers == DefaultAnswers
    {
      answers := DefaultAnswers;
    }
  }
}
