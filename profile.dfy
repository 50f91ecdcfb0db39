/**
 * What the profile screen derives from the signed-in user
 * (src/screens/main/ProfileScreen.tsx): the display name and handle taken
 * from the email, the preference chip sections, and the outcome of the
 * loader. The stored token and the `getUser` response are parameters.
 */
module Profile {
  import opened Wrappers
  import opened Text
  import opened Alerts

  datatype Preferences = Preferences(
    cuisines: Option<seq<string>>,
    diets: Option<seq<string>>,
    allergies: Option<seq<string>>,
    recipeTypes: Option<seq<string>>,
    allergyOther: Option<string>)

  datatype UserData = UserData(email: Option<string>, preferences: Option<Preferences>)

  const DefaultDisplayName := "User"
  const DefaultHandle := "user"

  /** The characters `/[^a-zA-Z0-9]/g` does not remove. */
  predicate IsAsciiAlphanumeric(c: char) {
    'a' <= c <= 'z' || 'A' <= c <= 'Z' || '0' <= c <= '9'
  }

  /** `s.replace(/[^a-zA-Z0-9]/g, '')`: the ASCII letters and digits of `s`, in order. */
  function KeepAlphanumeric(s: string): (r: string)
    ensures forall i :: 0 <= i < |r| ==> IsAsciiAlphanumeric(r[i])
    ensures forall c :: c in r <==> c in s && IsAsciiAlphanumeric(c)
    ensures |r| <= |s|
    decreases |s|
  {
    if s == [] then []
    else
      assert s == [s[0]] + s[1..];
      (if IsAsciiAlphanumeric(s[0]) then [s[0]] else []) + KeepAlphanumeric(s[1..])
  }

  /** Text that is already letters and digits is kept whole. */
  lemma {:induction false} KeepAlphanumericIdentity(s: string)
    requires forall i :: 0 <= i < |s| ==> IsAsciiAlphanumeric(s[i])
    ensures KeepAlphanumeric(s) == s
    decreases |s|
  {
    if s != [] {
      KeepAlphanumericIdentity(s[1..]);
      assert s == [s[0]] + s[1..];
    }
  }

  /** One character is kept exactly when it is an ASCII letter or digit. */
  lemma KeepAlphanumericChar(c: char)
    ensures KeepAlphanumeric([c]) == if IsAsciiAlphanumeric(c) then [c] else []
  {
    assert [c][1..] == [];
  }

  /** Filtering works piece by piece, so the kept characters keep their order and repeats. */
  lemma {:induction false} KeepAlphanumericAppend(a: string, b: string)
    ensures KeepAlphanumeric(a + b) == KeepAlphanumeric(a) + KeepAlphanumeric(b)
    decreases |a|
  {
    if a == [] {
      assert a + b == b;
    } else {
      assert (a + b)[0] == a[0];
      assert (a + b)[1..] == a[1..] + b;
      KeepAlphanumericAppend(a[1..], b);
    }
  }

  /** Filtering a second time changes nothing. */
  lemma KeepAlphanumericIdempotent(s: string)
    ensures KeepAlphanumeric(KeepAlphanumeric(s)) == KeepAlphanumeric(s)
  {
    KeepAlphanumericIdentity(KeepAlphanumeric(s));
  }

  /** `email.split('@')[0]`: the text before the first `@`. */
  function LocalPart(email: string): (local: string)
    ensures '@' !in local
    ensures local <= email
  {
    if '@' in email then
      SplitFirstPart(email, '@');
      Split(email, '@')[0]
    else
      SplitWithoutSeparator(email, '@');
      Split(email, '@')[0]
  }

  /**
   * `user.email?.split('@')[0]?.replace(/[^a-zA-Z0-9]/g, '') || 'User'`:
   * never empty, and only ASCII letters and digits.
   */
  function DisplayName(email: Option<string>): (name: string)
    ensures |name| > 0
    ensures forall i :: 0 <= i < |name| ==> IsAsciiAlphanumeric(name[i])
    ensures var cleaned := if email.Some? then KeepAlphanumeric(LocalPart(email.value)) else "";
            name == if cleaned == "" then DefaultDisplayName else cleaned
  {
    var cleaned := if email.Some? then KeepAlphanumeric(LocalPart(email.value)) else "";
    if cleaned == "" then DefaultDisplayName else cleaned
  }

  /** An email with no `@` is its own local part. */
  lemma LocalPartWithoutAt(email: string)
    requires '@' !in email
    ensures LocalPart(email) == email
  {
    SplitWithoutSeparator(email, '@');
  }

  /** The local part of `local@domain` is `local`, whatever the domain holds. */
  lemma LocalPartOfAddress(local: string, domain: string)
    requires '@' !in local
    ensures LocalPart(local + "@" + domain) == local
  {
    SplitCons(local, domain, '@');
  }

  /** The display name depends only on the local part, not on the domain. */
  lemma DisplayNameIgnoresDomain(local: string, domain: string)
    requires '@' !in local
    ensures DisplayName(Some(local + "@" + domain)) == DisplayName(Some(local))
  {
    LocalPartOfAddress(local, domain);
    LocalPartWithoutAt(local);
  }

  /** The display name of `local@domain` is the letters and digits of `local`, or "User" when it has none. */
  lemma DisplayNameOfAddress(local: string, domain: string)
    requires '@' !in local
    ensures DisplayName(Some(local + "@" + domain))
            == if KeepAlphanumeric(local) == "" then DefaultDisplayName else KeepAlphanumeric(local)
  {
    LocalPartOfAddress(local, domain);
  }

  /** The filter on a dotted name keeps both halves, in order. */
  lemma KeepAlphanumericDotted(first: string, last: string)
    requires forall i :: 0 <= i < |first| ==> IsAsciiAlphanumeric(first[i])
    requires forall i :: 0 <= i < |last| ==> IsAsciiAlphanumeric(last[i])
    ensures KeepAlphanumeric(first + ['.'] + last) == first + last
  {
    KeepAlphanumericChar('.');
    assert KeepAlphanumeric(['.']) == [];
    KeepAlphanumericIdentity(first);
    KeepAlphanumericAppend(first, ['.']);
    assert KeepAlphanumeric(first + ['.']) == first + [];
    KeepAlphanumericIdentity(last);
    KeepAlphanumericAppend(first + ['.'], last);
    assert first + [] == first;
  }

  /** A dot inside the local part is dropped and both halves kept in order: `john.doe@…` shows `johndoe`. */
  lemma DisplayNameDropsPunctuation(first: string, last: string, domain: string)
    requires forall i :: 0 <= i < |first| ==> IsAsciiAlphanumeric(first[i])
    requires forall i :: 0 <= i < |last| ==> IsAsciiAlphanumeric(last[i])
    requires first + last != []
    ensures DisplayName(Some(first + ['.'] + last + "@" + domain)) == first + last
  {
    var local := first + ['.'] + last;
    assert '@' !in local;
    KeepAlphanumericDotted(first, last);
    DisplayNameOfAddress(local, domain);
  }

  /** A local part made of letters and digits is the display name as is. */
  lemma DisplayNameOfPlainLocal(local: string, domain: string)
    requires '@' !in local && local != ""
    requires forall i :: 0 <= i < |local| ==> IsAsciiAlphanumeric(local[i])
    ensures DisplayName(Some(local + "@" + domain)) == local
  {
    LocalPartOfAddress(local, domain);
    KeepAlphanumericIdentity(local);
  }

  /** A local part with no letter or digit, and a missing email, give "User". */
  lemma DisplayNameFallsBack(email: Option<string>)
    requires email.Some? ==> forall c :: c in LocalPart(email.value) ==> !IsAsciiAlphanumeric(c)
    ensures DisplayName(email) == DefaultDisplayName
  {
  }

  /** `'@' + (user.email?.split('@')[0] || 'user')`: an `@` and then a non-empty name with no `@`. */
  function Handle(email: Option<string>): (h: string)
    ensures |h| >= 2 && h[0] == '@'
    ensures '@' !in h[1..]
    ensures (email.None? || LocalPart(email.value) == "") ==> h == "@" + DefaultHandle
    ensures email.Some? && LocalPart(email.value) != "" ==> h == "@" + LocalPart(email.value)
  {
    var local := if email.Some? then LocalPart(email.value) else "";
    var h := "@" + (if local == "" then DefaultHandle else local);
    assert h[1..] == (if local == "" then DefaultHandle else local);
    h
  }

  /** The handle keeps the raw local part, punctuation included. */
  lemma HandleOfAddress(local: string, domain: string)
    requires '@' !in local && local != ""
    ensures Handle(Some(local + "@" + domain)) == "@" + local
  {
    LocalPartOfAddress(local, domain);
  }

  /** The four chip sections, in the order they are rendered. */
  datatype Topic = CuisinesTopic | DietsTopic | AllergiesTopic | RecipeTypesTopic

  function TitleOf(t: Topic): string {
    match t
    case CuisinesTopic => "Favorite Cuisines"
    case DietsTopic => "Dietary Preferences"
    case AllergiesTopic => "Allergies & Restrictions"
    case RecipeTypesTopic => "Recipe Types"
  }

  function ItemsOf(p: Preferences, t: Topic): Option<seq<string>> {
    match t
    case CuisinesTopic => p.cuisines
    case DietsTopic => p.diets
    case AllergiesTopic => p.allergies
    case RecipeTypesTopic => p.recipeTypes
  }

  datatype ChipSection = ChipSection(title: string, chips: seq<string>)

  /** `renderPreferenceChips`: nothing for an absent or empty list, otherwise one titled section. */
  function Chips(items: Option<seq<string>>, title: string): (s: seq<ChipSection>)
    ensures |s| <= 1
    ensures |s| == 1 <==> items.Some? && |items.value| > 0
    ensures |s| == 1 ==> s[0] == ChipSection(title, items.value)
  {
    if items.None? || |items.value| == 0 then [] else [ChipSection(title, items.value)]
  }

  /** The chip sections under "Your Food Preferences": none of them is empty. */
  function PreferenceSections(p: Preferences): (sections: seq<ChipSection>)
    ensures |sections| <= 4
    ensures forall i :: 0 <= i < |sections| ==> |sections[i].chips| > 0
  {
    Chips(ItemsOf(p, CuisinesTopic), TitleOf(CuisinesTopic))
    + Chips(ItemsOf(p, DietsTopic), TitleOf(DietsTopic))
    + Chips(ItemsOf(p, AllergiesTopic), TitleOf(AllergiesTopic))
    + Chips(ItemsOf(p, RecipeTypesTopic), TitleOf(RecipeTypesTopic))
  }

  /** A topic's section is rendered exactly when its list is present and non-empty, with that list. */
  lemma SectionShownIff(p: Preferences, t: Topic)
    ensures ChipSection(TitleOf(t), ItemsOf(p, t).value) in PreferenceSections(p)
              <== ItemsOf(p, t).Some? && |ItemsOf(p, t).value| > 0
    ensures (exists i :: 0 <= i < |PreferenceSections(p)| && PreferenceSections(p)[i].title == TitleOf(t))
              ==> ItemsOf(p, t).Some? && |ItemsOf(p, t).value| > 0
  {
    var c := Chips(ItemsOf(p, CuisinesTopic), TitleOf(CuisinesTopic));
    var d := Chips(ItemsOf(p, DietsTopic), TitleOf(DietsTopic));
    var a := Chips(ItemsOf(p, AllergiesTopic), TitleOf(AllergiesTopic));
    var r := Chips(ItemsOf(p, RecipeTypesTopic), TitleOf(RecipeTypesTopic));
    var s := PreferenceSections(p);
    assert s == c + d + a + r;
    if exists i :: 0 <= i < |s| && s[i].title == TitleOf(t) {
      var i :| 0 <= i < |s| && s[i].title == TitleOf(t);
      assert s[i] in c || s[i] in d || s[i] in a || s[i] in r;
    }
  }

  /** `user.preferences.allergyOther && …`: the other-allergy text, shown only when non-empty. */
  function OtherAllergies(p: Preferences): (text: Option<string>)
    ensures text.Some? <==> p.allergyOther.Some? && p.allergyOther.value != ""
    ensures text.Some? ==> text == p.allergyOther
  {
    if p.allergyOther.Some? && p.allergyOther.value != "" then p.allergyOther else None
  }

  const LoadFailedAlert := Alert("Error", "Failed to load user profile")

  /** What `AsyncStorage.getItem('token')` gave: the stored token, or a rejection. */
  datatype TokenRead = Stored(token: Option<string>) | StorageFailed

  /** What `auth.getUser` did, when it was asked. */
  datatype UserResponse = Received(user: UserData) | RequestFailed

  /** The screen state once `loadUserProfile` has finished. */
  datatype LoadedProfile = LoadedProfile(requested: bool, user: Option<UserData>, alert: Option<Alert>, loading: bool)

  /** A non-empty token was read, so `getUser` is called. */
  predicate HasToken(read: TokenRead) {
    read.Stored? && read.token.Some? && read.token.value != ""
  }

  /**
   * `loadUserProfile`: the token read and the request share one `try`.
   * Without a non-empty token no request is made and the user stays null;
   * a failed read or a failed request raises the alert; loading always ends.
   */
  function LoadUserProfile(read: TokenRead, response: UserResponse): (s: LoadedProfile)
    ensures !s.loading
    ensures s.requested <==> HasToken(read)
    ensures s.user.Some? <==> s.requested && response.Received?
    ensures s.user.Some? ==> s.user.value == response.user
    ensures s.alert.Some? <==> read.StorageFailed? || (s.requested && response.RequestFailed?)
    ensures s.alert.Some? ==> s.alert.value == LoadFailedAlert
  {
    match read
    case StorageFailed => LoadedProfile(false, None, Some(LoadFailedAlert), false)
    case Stored(token) =>
      if token.None? || token.value == "" then LoadedProfile(false, None, None, false)
      else
        match response
        case Received(u) => LoadedProfile(true, Some(u), None, false)
        case RequestFailed => LoadedProfile(true, None, Some(LoadFailedAlert), false)
  }
}
