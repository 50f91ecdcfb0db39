/**
 * The allergy question that ends onboarding (src/screens/onboarding/AllergiesScreen.tsx):
 * unlike the earlier questions it submits the whole profile. The request is
 * a parameter: `submitSucceeds` says whether `submitOnboardingProfile` resolved.
 */
module Allergies {
  import opened Wrappers
  import opened Alerts
  import opened OnboardingContext
  import opened Selection

  /** The option whose selection reveals the free-text box. */
  const OtherOption := "Other"

  /** What skipping the question submits. */
  const SkippedAllergies: seq<string> := ["None"]

  const SubmitFailedAlert := Alert("Error", "Failed to save your preferences. Please try again.")

  /** Where a submission leaves the user: on the completion screen, or on this one with an alert. */
  datatype Outcome = Navigated(route: Route) | Alerted(alert: Alert)

  /** `{ ...answers, allergies, allergyOther }`: the profile handed to `submitOnboardingProfile`. */
  function SubmittedProfile(answers: Answers, allergies: seq<string>, other: string): (p: Answers)
    ensures p.allergies == allergies && p.allergyOther == Some(other)
    ensures p.(allergies := answers.allergies, allergyOther := answers.allergyOther) == answers
  {
    answers.(allergies := allergies, allergyOther := Some(other))
  }

  /** Whatever the answers, skipping submits exactly "None" and an empty other-allergy text. */
  lemma SkipIgnoresAnswers(a: Answers, b: Answers)
    requires a.(allergies := [], allergyOther := None) == b.(allergies := [], allergyOther := None)
    ensures SubmittedProfile(a, SkippedAllergies, "") == SubmittedProfile(b, SkippedAllergies, "")
  {
  }

  /** The free-text box is on screen exactly while "Other" is selected. */
  predicate OtherInputVisible(selected: seq<string>) {
    OtherOption in selected
  }

  /** Toggling "Other" shows or hides the box. */
  lemma OtherInputFollowsToggle(selected: seq<string>)
    ensures OtherInputVisible(Toggle(selected, OtherOption)) <==> !OtherInputVisible(selected)
  {
  }

  /** Toggling any other allergy leaves the box as it was. */
  lemma OtherInputIgnoresOtherToggles(selected: seq<string>, allergy: string)
    requires allergy != OtherOption
    ensures OtherInputVisible(Toggle(selected, allergy)) <==> OtherInputVisible(selected)
  {
  }

  /** The outcome of a settled submission. */
  function OutcomeOf(submitSucceeds: bool): (o: Outcome)
    ensures o.Navigated? <==> submitSucceeds
    ensures o.Navigated? ==> o.route == ToCompletion
    ensures o.Alerted? ==> o.alert == SubmitFailedAlert
  {
    if submitSucceeds then Navigated(ToCompletion) else Alerted(SubmitFailedAlert)
  }

  class AllergiesScreen {
    const store: AnswersStore
    var selected: seq<string>
    var other: string
    var isLoading: bool

    /** The selection and the text start from the stored answers, an absent text as "". */
    constructor (store: AnswersStore)
      ensures this.store == store
      ensures selected == store.answers.allergies
      ensures other == store.answers.allergyOther.GetOr("")
      ensures !isLoading
    {
      this.store := store;
      selected := store.answers.allergies;
      other := store.answers.allergyOther.GetOr("");
      isLoading := false;
    }

    /** `toggleAllergy`: add when absent, drop every occurrence when present. */
    method ToggleAllergy(allergy: string)
      modifies this`selected
      ensures selected == Toggle(old(selected), allergy)
    {
      selected := Toggle(selected, allergy);
    }

    /** The text box's `onChangeText`. */
    method SetOther(text: string)
      modifies this`other
      ensures other == text
    {
      other := text;
    }

    /**
     * `handleSubmit`: the answers get the selection and the text whether or not
     * the submission succeeds, the submitted profile is those answers, and the
     * loading flag is down again once the request has settled.
     */
    method HandleSubmit(submitSucceeds: bool) returns (sent: Answers, outcome: Outcome)
      modifies this`isLoading, store
      ensures store.answers == SubmittedProfile(old(store.answers), selected, other)
      ensures sent == store.answers
      ensures outcome == OutcomeOf(submitSucceeds)
      ensures !isLoading
    {
      isLoading := true;
      store.answers := store.answers.(allergies := selected, allergyOther := Some(other));
      sent := store.answers;
      outcome := OutcomeOf(submitSucceeds);
      isLoading := false;
    }

    /**
     * `handleSkip`: submits "None" and an empty text on top of the stored
     * answers, and leaves the stored answers and the selection alone.
     */
    method HandleSkip(submitSucceeds: bool) returns (sent: Answers, outcome: Outcome)
      modifies this`isLoading
      ensures sent == SubmittedProfile(store.answers, SkippedAllergies, "")
      ensures outcome == OutcomeOf(submitSucceeds)
      ensures !isLoading
    {
      isLoading := true;
      sent := SubmittedProfile(store.answers, SkippedAllergies, "");
      outcome := OutcomeOf(submitSucceeds);
      isLoading := false;
    }
  }
}
