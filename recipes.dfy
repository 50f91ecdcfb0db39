/** The recipe-type question of onboarding (src/screens/onboarding/RecipesScreen.tsx). */
module Recipes {
  import opened OnboardingContext
  import opened Selection

  /** What skipping the question records. */
  const SkippedRecipeTypes: seq<string> := ["Dinner", "Lunch"]

  class RecipesScreen {
    const store: AnswersStore
    var selected: seq<string>

    /** The selection starts as the stored answer. */
    constructor (store: AnswersStore)
      ensures this.store == store && selected == store.answers.recipeTypes
    {
      this.store := store;
      selected := store.answers.recipeTypes;
    }

    /** `toggleRecipe`: add when absent, drop every occurrence when present. */
    method ToggleRecipe(recipe: string)
      modifies this
      ensures selected == Toggle(old(selected), recipe)
    {
      selected := Toggle(selected, recipe);
    }

    /** `handleSubmit`: record the selection, keep every other answer, go on to allergies. */
    method HandleSubmit() returns (next: Route)
      modifies store
      ensures store.answers == old(store.answers).(recipeTypes := selected)
      ensures next == ToAllergies
    {
      store.answers := store.answers.(recipeTypes := selected);
      next := ToAllergies;
    }

    /** `handleSkip`: record dinner and lunch whatever is selected, go on to allergies. */
    method HandleSkip() returns (next: Route)
      modifies store
      ensures store.answers == old(store.answers).(recipeTypes := SkippedRecipeTypes)
      ensures next == ToAllergies
    {
      store.answers := store.answers.(recipeTypes := SkippedRecipeTypes);
      next := ToAllergies;
    }
  }
}
