/**
 * The recipe page (src/screens/main/RecipeDetailsScreen.tsx): whether the
 * recipe is among the saved ones, the save/unsave button, and the summary
 * and steps shown. The saved-list response and the outcome of the save or
 * delete request are parameters.
 */
module RecipeDetails {
  import opened Wrappers
  import opened Text
  import opened Alerts
  import opened Spoonacular

  /** An entry of the saved-recipes response; only its `recipeId` is read. */
  datatype SavedEntry = SavedEntry(recipeId: string)

  /** `savedRecipes.some(r => r.recipeId === recipeId.toString())`. */
  function IsSavedIn(saved: seq<SavedEntry>, recipeId: int): (b: bool)
    ensures b <==> exists i :: 0 <= i < |saved| && saved[i].recipeId == IntToString(recipeId)
    decreases |saved|
  {
    if saved == [] then false
    else
      var rest := IsSavedIn(saved[1..], recipeId);
      assert forall i :: 1 <= i < |saved| ==> saved[i] == saved[1..][i - 1];
      saved[0].recipeId == IntToString(recipeId) || rest
  }

  /** An entry for a different recipe never counts, since distinct ids have distinct strings. */
  lemma OtherRecipesDoNotCount(saved: seq<SavedEntry>, recipeId: int, other: int)
    requires other != recipeId
    ensures IsSavedIn(saved + [SavedEntry(IntToString(other))], recipeId) == IsSavedIn(saved, recipeId)
  {
    IntToStringInjective(other, recipeId);
    var s := saved + [SavedEntry(IntToString(other))];
    assert forall i :: 0 <= i < |saved| ==> s[i] == saved[i];
  }

  /** The entry a successful save posts is recognised by the next check. */
  lemma PostedEntryCounts(saved: seq<SavedEntry>, recipeId: int)
    ensures IsSavedIn(saved + [SavedEntry(IntToString(recipeId))], recipeId)
  {
    var s := saved + [SavedEntry(IntToString(recipeId))];
    assert s[|saved|].recipeId == IntToString(recipeId);
  }

  /** `recipe.summary.replace(/<[^>]*>/g, '')`: tag-free and never cut. */
  function DisplayedSummary(summary: string): (text: string)
    ensures text == StripTags(summary)
    ensures NoTag(text)
    ensures |text| <= |summary|
  {
    StripTagsLeavesNoTag(summary);
    StripTags(summary)
  }

  /** The card description is the start of the summary this page shows, plus "...". */
  lemma CardDescriptionIsDisplayedSummaryCut(p: ProviderRecipe)
    ensures Transform(p).description == Prefix(DisplayedSummary(p.summary), DescriptionLength) + Ellipsis
  {
  }

  /** `recipe.analyzedInstructions[0]?.steps`: the first block's steps, or none. */
  function DisplayedSteps(instructions: seq<AnalyzedInstruction>): (steps: seq<InstructionStep>)
    ensures instructions == [] ==> steps == []
    ensures instructions != [] ==> steps == instructions[0].steps
  {
    if instructions == [] then [] else instructions[0].steps
  }

  /** Blocks after the first are never listed. */
  lemma LaterBlocksIgnored(first: AnalyzedInstruction, later: seq<AnalyzedInstruction>)
    ensures DisplayedSteps([first] + later) == DisplayedSteps([first])
  {
  }

  /** The request the button sends. */
  datatype SaveRequest = DeleteSaved(path: string) | PostSave(recipeId: string)

  const RemovedAlert := Alert("Success", "Recipe removed from saved recipes")
  const SavedAlert := Alert("Success", "Recipe saved successfully")
  const SaveFailedAlert := Alert("Error", "Failed to save recipe. Please try again.")

  /** `/user/recipes/save/${recipeId}`. */
  function DeletePath(recipeId: int): (path: string)
    ensures "/user/recipes/save/" <= path
    ensures path[|"/user/recipes/save/"|..] == IntToString(recipeId)
  {
    "/user/recipes/save/" + IntToString(recipeId)
  }

  /** Each recipe has its own delete path, so an unsave removes only this recipe. */
  lemma DeletePathInjective(a: int, b: int)
    ensures DeletePath(a) == DeletePath(b) <==> a == b
  {
    var n := |"/user/recipes/save/"|;
    assert DeletePath(a)[n..] == IntToString(a);
    assert DeletePath(b)[n..] == IntToString(b);
    IntToStringInjective(a, b);
  }

  class RecipeDetailsScreen {
    const recipeId: int
    var isSaved: bool
    var isSaving: bool

    constructor (recipeId: int)
      ensures this.recipeId == recipeId && !isSaved && !isSaving
    {
      this.recipeId := recipeId;
      isSaved := false;
      isSaving := false;
    }

    /** `checkIfRecipeIsSaved`: a failed request leaves the flag as it was. */
    method CheckIfRecipeIsSaved(response: Option<seq<SavedEntry>>)
      modifies this`isSaved
      ensures response.Some? ==> isSaved == IsSavedIn(response.value, recipeId)
      ensures response.None? ==> isSaved == old(isSaved)
    {
      if response.Some? {
        isSaved := IsSavedIn(response.value, recipeId);
      }
    }

    /**
     * `handleSaveRecipe`: a saved recipe is deleted and an unsaved one posted;
     * the flag flips only when the request succeeds, and `isSaving` is down
     * afterwards on every path.
     */
    method HandleSaveRecipe(requestSucceeds: bool) returns (request: SaveRequest, alert: Alert)
      modifies this`isSaved, this`isSaving
      ensures old(isSaved) ==> request == DeleteSaved(DeletePath(recipeId))
      ensures !old(isSaved) ==> request == PostSave(IntToString(recipeId))
      ensures isSaved == (if requestSucceeds then !old(isSaved) else old(isSaved))
      ensures !requestSucceeds ==> alert == SaveFailedAlert
      ensures requestSucceeds ==> alert == if old(isSaved) then RemovedAlert else SavedAlert
      ensures !isSaving
    {
      isSaving := true;
      if isSaved {
        request := DeleteSaved(DeletePath(recipeId));
        if requestSucceeds {
          isSaved := false;
          alert := RemovedAlert;
        } else {
          alert := SaveFailedAlert;
        }
      } else {
        request := PostSave(IntToString(recipeId));
        if requestSucceeds {
          isSaved := true;
          alert := SavedAlert;
        } else {
          alert := SaveFailedAlert;
        }
      }
      isSaving := false;
    }
  }
}
