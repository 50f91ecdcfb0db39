/** The diet question of onboarding (src/screens/onboarding/DietsScreen.tsx). */
module Diets {
  import opened OnboardingContext
  import opened Selection

  /** What skipping the question records. */
  const SkippedDiets: seq<string> := ["No specific diet"]

  class DietsScreen {
    const store: AnswersStore
    var selected: seq<string>

    /** The selection starts as the stored answer. */
    constructor (store: AnswersStore)
      ensures this.store == store && selected == store.answers.diets
    {
      this.store := store;
      selected := store.answers.diets;
    }

    /** `toggleDiet`: add when absent, drop every occurrence when present. */
    method ToggleDiet(diet: string)
      modifies this
      ensures selected == Toggle(old(selected), diet)
    {
      selected := Toggle(selected, diet);
    }

    /** `handleSubmit`: record the selection, keep every other answer, go on to recipe types. */
    method HandleSubmit() returns (next: Route)
      modifies store
      ensures store.answers == old(store.answers).(diets := selected)
      ensures next == ToRecipes
    {
      store.answers := store.answers.(diets := selected);
      next := ToRecipes;
    }

    /** `handleSkip`: record "No specific diet" whatever is selected, go on to recipe types. */
    method HandleSkip() returns (next: Route)
      modifies store
      ensures store.answers == old(store.answers).(diets := SkippedDiets)
      ensures next == ToRecipes
    {
      store.answers := store.answers.(diets := SkippedDiets);
      next := ToRecipes;
    }
  }
}
