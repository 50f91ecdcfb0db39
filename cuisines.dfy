/** The cuisine question of onboarding (src/screens/onboarding/CuisinesScreen.tsx). */
module Cuisines {
  import opened OnboardingContext
  import opened Selection

  /** What skipping the question records. */
  const SkippedCuisines: seq<string> := ["American", "Italian"]

  class CuisinesScreen {
    const store: AnswersStore
    var selected: seq<string>

    /** The selection starts as the stored answer. */
    constructor (store: AnswersStore)
      ensures this.store == store && selected == store.answers.cuisines
    {
      this.store := store;
      selected := store.answers.cuisines;
    }

    /** `toggleCuisine`: add when absent, drop every occurrence when present. */
    method ToggleCuisine(cuisine: string)
      modifies this
      ensures selected == Toggle(old(selected), cuisine)
    {
      selected := Toggle(selected, cuisine);
    }

    /** `handleSubmit`: record the selection, keep every other answer, go on to diets. */
    method HandleSubmit() returns (next: Route)
      modifies store
      ensures store.answers == old(store.answers).(cuisines := selected)
      ensures next == ToDiets
    {
      store.answers := store.answers.(cuisines := selected);
      next := ToDiets;
    }

    /** `handleSkip`: record the default cuisines whatever is selected, go on to diets. */
    method HandleSkip() returns (next: Route)
      modifies store
      ensures store.answers == old(store.answers).(cuisines := SkippedCuisines)
      ensures next == ToDiets
    {
      store.answers := store.answers.(cuisines := SkippedCuisines);
      next := ToDiets;
    }
  }
}
