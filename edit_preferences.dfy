/**
 * Editing the saved preferences (src/screens/main/EditPreferencesScreen.tsx).
 * `toggleSelection` accepts any key of the answers record and treats a value
 * that is not a list as an empty one, so the record is modelled as the
 * JavaScript object it is: a map from keys to string or list values.
 * `updateSucceeds` stands for whether `auth.updatePreferences` resolved.
 */
module EditPreferences {
  import opened Wrappers
  import opened Alerts
  import opened OnboardingContext
  import opened Selection

  /** `keyof OnboardingAnswers`. */
  datatype Key = Name | Email | Password | Birthday | CuisinesKey | DietsKey | RecipeTypesKey | AllergiesKey | AllergyOther

  /** A property value: a string or a list of strings. */
  datatype Field = Str(text: string) | List(items: seq<string>)

  /** The answers object; an absent key is an `undefined` property. */
  type Record = map<Key, Field>

  /** The answers as the object the screen holds; absent optional strings have no property. */
  function AsRecord(a: Answers): (r: Record)
    ensures CuisinesKey in r && DietsKey in r && RecipeTypesKey in r && AllergiesKey in r
    ensures r[CuisinesKey] == List(a.cuisines) && r[DietsKey] == List(a.diets)
    ensures r[RecipeTypesKey] == List(a.recipeTypes) && r[AllergiesKey] == List(a.allergies)
    ensures Name in r <==> a.name.Some?
    ensures Email in r <==> a.email.Some?
    ensures Password in r <==> a.password.Some?
    ensures Birthday in r <==> a.birthday.Some?
    ensures AllergyOther in r <==> a.allergyOther.Some?
    ensures a.name.Some? ==> r[Name] == Str(a.name.value)
    ensures a.email.Some? ==> r[Email] == Str(a.email.value)
    ensures a.password.Some? ==> r[Password] == Str(a.password.value)
    ensures a.birthday.Some? ==> r[Birthday] == Str(a.birthday.value)
    ensures a.allergyOther.Some? ==> r[AllergyOther] == Str(a.allergyOther.value)
  {
    var r := map[CuisinesKey := List(a.cuisines), DietsKey := List(a.diets),
                 RecipeTypesKey := List(a.recipeTypes), AllergiesKey := List(a.allergies)];
    var r := if a.name.Some? then r[Name := Str(a.name.value)] else r;
    var r := if a.email.Some? then r[Email := Str(a.email.value)] else r;
    var r := if a.password.Some? then r[Password := Str(a.password.value)] else r;
    var r := if a.birthday.Some? then r[Birthday := Str(a.birthday.value)] else r;
    if a.allergyOther.Some? then r[AllergyOther := Str(a.allergyOther.value)] else r
  }

  /** `Array.isArray(v) ? v : []` for the value under `section`. */
  function ListAt(r: Record, section: Key): seq<string> {
    if section in r && r[section].List? then r[section].items else []
  }

  /** Whether `option` is shown checked in `section`. */
  predicate IsChecked(r: Record, section: Key, option: string) {
    option in ListAt(r, section)
  }

  /**
   * The updater `toggleSelection` hands to `setPreferences`: every other key
   * keeps its value, and `section` becomes a list whatever it held before.
   */
  function ToggledRecord(r: Record, section: Key, item: string): (r': Record)
    ensures r'.Keys == r.Keys + {section}
    ensures forall k :: k in r && k != section ==> r'[k] == r[k]
    ensures r'[section] == List(Toggle(ListAt(r, section), item))
  {
    r[section := List(Toggle(ListAt(r, section), item))]
  }

  /** Toggling flips the pressed option's checkbox and no other checkbox anywhere. */
  lemma ToggleFlipsOnlyPressedOption(r: Record, section: Key, item: string, k: Key, option: string)
    ensures IsChecked(ToggledRecord(r, section, item), k, option)
        <==> (if k == section && option == item then !IsChecked(r, k, option) else IsChecked(r, k, option))
  {
    var r' := ToggledRecord(r, section, item);
    if k == section {
      assert ListAt(r', k) == Toggle(ListAt(r, k), item);
    } else {
      assert ListAt(r', k) == ListAt(r, k);
    }
  }

  /** A key that holds no list (a text field, or nothing) starts over as the one-item list. */
  lemma ToggleNonListStartsFresh(r: Record, section: Key, item: string)
    requires section !in r || !r[section].List?
    ensures ToggledRecord(r, section, item)[section] == List([item])
  {
  }

  /** Pressing an unchecked option twice gives back the same record. */
  lemma ToggleTwiceRestoresRecord(r: Record, section: Key, item: string)
    requires section in r && r[section].List? && item !in r[section].items
    ensures ToggledRecord(ToggledRecord(r, section, item), section, item) == r
  {
    ToggleTwiceRestores(r[section].items, item);
  }

  /** A duplicate-free list stays duplicate-free. */
  lemma ToggleRecordKeepsDistinct(r: Record, section: Key, item: string)
    requires Distinct(ListAt(r, section))
    ensures Distinct(ListAt(ToggledRecord(r, section, item), section))
  {
    ToggleKeepsDistinct(ListAt(r, section), item);
  }

  const UpdatedAlert := Alert("Success", "Your preferences have been updated!")
  const UpdateFailedAlert := Alert("Error", "Failed to update preferences. Please try again.")

  /**
   * A settled save: on success `onSave` got the preferences and the alert's OK
   * goes back; on failure only the error alert shows.
   */
  datatype SaveOutcome = Saved(delivered: Record, alert: Alert) | SaveFailed(alert: Alert)

  /** The four tabs and the list each one edits. */
  datatype Tab = CuisinesTab | DietsTab | AllergiesTab | RecipeTypesTab

  function SectionOf(tab: Tab): (k: Key)
    ensures k.CuisinesKey? || k.DietsKey? || k.AllergiesKey? || k.RecipeTypesKey?
  {
    match tab
    case CuisinesTab => CuisinesKey
    case DietsTab => DietsKey
    case AllergiesTab => AllergiesKey
    case RecipeTypesTab => RecipeTypesKey
  }

  /** Each tab edits its own list. */
  lemma SectionOfInjective(a: Tab, b: Tab)
    ensures SectionOf(a) == SectionOf(b) <==> a == b
  {
  }

  class EditPreferencesScreen {
    var preferences: Record
    var isLoading: bool
    var activeSection: Tab

    /** The draft starts as the current preferences, on the cuisines tab. */
    constructor (current: Answers)
      ensures preferences == AsRecord(current) && !isLoading && activeSection == CuisinesTab
    {
      preferences := AsRecord(current);
      isLoading := false;
      activeSection := CuisinesTab;
    }

    /** A tab press. */
    method SelectTab(tab: Tab)
      modifies this`activeSection
      ensures activeSection == tab
    {
      activeSection := tab;
    }

    /** An option press: `toggleSelection(section, label)`. */
    method ToggleSelection(section: Key, item: string)
      modifies this`preferences
      ensures preferences == ToggledRecord(old(preferences), section, item)
    {
      preferences := ToggledRecord(preferences, section, item);
    }

    /** An option press on the shown list: the toggled key is the active tab's section. */
    method PressOption(option: string)
      modifies this`preferences
      ensures preferences == ToggledRecord(old(preferences), SectionOf(activeSection), option)
      ensures IsChecked(preferences, SectionOf(activeSection), option) <==> !IsChecked(old(preferences), SectionOf(activeSection), option)
    {
      ToggleSelection(SectionOf(activeSection), option);
    }

    /** `handleSave`, once `updatePreferences` has settled: the draft is kept either way. */
    method HandleSave(updateSucceeds: bool) returns (outcome: SaveOutcome)
      modifies this`isLoading
      ensures outcome.Saved? <==> updateSucceeds
      ensures outcome.Saved? ==> outcome.delivered == preferences && outcome.alert == UpdatedAlert
      ensures outcome.SaveFailed? ==> outcome.alert == UpdateFailedAlert
      ensures !isLoading
    {
      isLoading := true;
      if updateSucceeds {
        outcome := Saved(preferences, UpdatedAlert);
      } else {
        outcome := SaveFailed(UpdateFailedAlert);
      }
      isLoading := false;
    }
  }
}
