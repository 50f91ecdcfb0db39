/**
 * Editing the name and birthday (src/screens/main/EditProfileScreen.tsx).
 * The date picker hands over the already formatted birthday text, and
 * `updateSucceeds` stands for whether `auth.updateProfile` resolved.
 */
module EditProfile {
  import opened Wrappers
  import opened Text
  import opened Alerts

  /** `currentProfile`: both fields may be absent. */
  datatype CurrentProfile = CurrentProfile(name: Option<string>, birthday: Option<string>)

  /** What `onSave` receives. */
  datatype ProfileUpdate = ProfileUpdate(name: string, birthday: string)

  const NameRequiredAlert := Alert("Error", "Please enter your name")
  const UpdateFailedAlert := Alert("Error", "Failed to update profile. Please try again.")

  /**
   * The validation of `handleSave`: nothing when the name is blank (white
   * space only), otherwise the trimmed name with the birthday as it is.
   */
  function ValidatedUpdate(name: string, birthday: string): (u: Option<ProfileUpdate>)
    ensures u.None? <==> forall i :: 0 <= i < |name| ==> IsWhitespace(name[i])
    ensures u.Some? ==> u.value.name == Trim(name) && u.value.birthday == birthday
    ensures u.Some? ==> |u.value.name| > 0 && !IsWhitespace(u.value.name[0])
                        && !IsWhitespace(u.value.name[|u.value.name| - 1])
  {
    TrimEmptyIff(name);
    var trimmed := Trim(name);
    if trimmed == "" then None else Some(ProfileUpdate(trimmed, birthday))
  }

  /** Saving an already trimmed name sends the same update. */
  lemma ValidationStable(name: string, birthday: string)
    ensures ValidatedUpdate(Trim(name), birthday) == ValidatedUpdate(name, birthday)
  {
    TrimIdempotent(name);
  }

  /** Surrounding white space never changes what is saved. */
  lemma ValidationIgnoresPadding(name: string, pad1: string, pad2: string, birthday: string)
    requires forall i :: 0 <= i < |pad1| ==> IsWhitespace(pad1[i])
    requires forall i :: 0 <= i < |pad2| ==> IsWhitespace(pad2[i])
    requires name != [] && !IsWhitespace(name[0]) && !IsWhitespace(name[|name| - 1])
    ensures ValidatedUpdate(pad1 + name + pad2, birthday) == Some(ProfileUpdate(name, birthday))
  {
    var s := pad1 + name + pad2;
    assert s[|pad1|] == name[0];
    assert LeadingWhitespace(s) == |pad1|;
    var t := Trim(s);
    // The last character of the name is not white space, so the trimmed block reaches it.
    assert !IsWhitespace(s[|pad1| + |name| - 1]);
    assert |name| <= |t|;
    // Everything after the name is white space, so the trimmed block stops there.
    forall k | |pad1| + |name| <= k < |s| ensures IsWhitespace(s[k]) {
      assert s[k] == pad2[k - |pad1| - |name|];
    }
    assert t[|t| - 1] == s[|pad1| + |t| - 1];
    assert t == s[|pad1|..|pad1| + |name|] == name;
  }

  /** How `handleSave` ended. */
  datatype SaveOutcome = NameRequired(alert: Alert) | Saved(update: ProfileUpdate) | SaveFailed(alert: Alert)

  class EditProfileScreen {
    var name: string
    var birthday: string
    var loading: bool

    /** Absent fields start as "". */
    constructor (current: CurrentProfile)
      ensures name == current.name.GetOr("") && birthday == current.birthday.GetOr("")
      ensures !loading
    {
      name := current.name.GetOr("");
      birthday := current.birthday.GetOr("");
      loading := false;
    }

    method SetName(text: string)
      modifies this`name
      ensures name == text
    {
      name := text;
    }

    /** A date picked in `handleDateChange`, already formatted. */
    method PickBirthday(formatted: string)
      modifies this`birthday
      ensures birthday == formatted
    {
      birthday := formatted;
    }

    /** The Clear button, shown only while a birthday is set. */
    method ClearBirthday()
      modifies this`birthday
      ensures birthday == ""
    {
      birthday := "";
    }

    /**
     * `handleSave`: a blank name raises the alert and leaves the loading
     * flag alone; otherwise the trimmed name and the birthday are sent,
     * `onSave` gets them only when the update resolves, and the flag is down
     * afterwards.
     */
    method HandleSave(updateSucceeds: bool) returns (outcome: SaveOutcome)
      modifies this`loading
      ensures ValidatedUpdate(name, birthday).None? ==> outcome == NameRequired(NameRequiredAlert) && loading == old(loading)
      ensures ValidatedUpdate(name, birthday).Some? ==> !loading
      ensures ValidatedUpdate(name, birthday).Some? && updateSucceeds ==> outcome == Saved(ValidatedUpdate(name, birthday).value)
      ensures ValidatedUpdate(name, birthday).Some? && !updateSucceeds ==> outcome == SaveFailed(UpdateFailedAlert)
    {
      var update := ValidatedUpdate(name, birthday);
      if update.None? {
        return NameRequired(NameRequiredAlert);
      }
      loading := true;
      if updateSucceeds {
        outcome := Saved(update.value);
      } else {
        outcome := SaveFailed(UpdateFailedAlert);
      }
      loading := false;
    }
  }
}
