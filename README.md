# Cooked: a verified model of the app's data and decision logic

Cooked is a React Native recipe app with an Express/MongoDB backend. This
project models the parts of it that hold logic of their own, and proves what
they promise:

- **Recipe normalisation** (`src/api/spoonacular.ts`). A provider recipe
  becomes the app's recipe:
  - the numeric id becomes its decimal string;
  - the difficulty is banded from `spoonacularScore`;
  - the summary loses its HTML tags, is cut to 150 characters and gets `...`;
  - every other field is copied.

  An ingredient search sends its list comma-joined as the `ingredients`
  query parameter.
- **The MongoDB URI rewrite** at the start of `connectDB`
  (`cooked-backend/server.js`). A URI that names no database gets
  `/cooked-app` put in front of its query.
- **Multi-select toggling**, shared by the four onboarding questions and the
  preferences editor. An absent item is added at the end; a present item is
  removed everywhere it occurs.
- **The screens' handlers**, each as a class whose fields are the screen's
  state:
  - the onboarding questions write their answers into the onboarding
    context;
  - the allergy question submits the whole profile;
  - the preferences and profile editors save;
  - login validates its input and classifies failures;
  - the recipe page saves and unsaves.
- **The profile screen's derivations**: the display name, the handle, the
  chip sections and the loader outcome.

Backend calls, storage reads and the platform's alerts are not executed.
Each handler takes the outcome of its request as a parameter: whether it
succeeded, or the response itself. It returns what the user would see: an
alert, a route, or the request it sent. A handler that awaits is modelled as
one method that runs to the end. Login is the exception: its re-entry guard
only matters while a request is in flight, so `BeginLogin` runs up to the
request and `FinishLogin` runs after it.

JavaScript's string built-ins are modelled on `string` (a sequence of
characters) in module `Text`:
- `includes`, `endsWith`, `split` and `join` with a one-character separator;
- `trim`, with the ECMAScript white-space set;
- `Number.prototype.toString` for integers.

These helpers are pinned by lemmas rather than by contracts of their own:
- `Contains` by `ContainsIff`;
- `Join` by `SplitJoin`;
- `IntToString` by `IntToStringRoundTrip` and `IntToStringInjective`, and by the digit-only, no-leading-zero contract of `NatToString`.

`EndsWith` is the suffix comparison itself. In module `Server`, `BaseOf` and `QueryOf` are `split('?')` at cooked-backend/server.js:43-44, and `NoQuery`, `OneQuery` and `SecondQueryDropped` pin them.

`undefined` is `Option.None`. Scores and amounts are `real`.

The converted recipe has no `source` field. Its difficulty is banded from
`spoonacularScore`, and `healthScore` is only copied
(src/api/spoonacular.ts:356-372).

## Model

| member | source | states |
|---|---|---|
| Text.ContainsIff | cooked-backend/server.js:38-40 | `includes` holds exactly when the text occurs at some index |
| Text.Split | cooked-backend/server.js:42 | `split` yields at least one part, no part holds the separator, and joining the parts gives the input back |
| Text.SplitJoin | src/api/spoonacular.ts:239 | splitting a comma join of comma-free items gives the items back, in order |
| Text.Trim | src/screens/main/EditProfileScreen.tsx:66 | `trim` returns the block starting at the first non-white-space character, with only white space around it and none at its ends |
| Text.TrimEmptyIff | src/screens/main/EditProfileScreen.tsx:66 | `!name.trim()` holds exactly when the name is all white space |
| Text.TrimIdempotent | src/screens/main/EditProfileScreen.tsx:72 | trimming twice is trimming once |
| Text.IntToStringRoundTrip | src/api/spoonacular.ts:357 | reading back `id.toString()` gives the id |
| Text.IntToStringInjective | src/screens/main/RecipeDetailsScreen.tsx:62 | two ids have the same decimal string exactly when they are equal |
| Selection.RemoveAll | src/screens/main/EditPreferencesScreen.tsx:99 | `filter(i => i !== item)` removes every occurrence of the item and keeps every other entry with its multiplicity |
| Selection.RemoveAllAppend | src/screens/main/EditPreferencesScreen.tsx:99 | filtering works piece by piece, so the kept entries keep their order |
| Selection.RemoveAllAbsent | src/screens/main/EditPreferencesScreen.tsx:99 | filtering out an absent item changes nothing |
| Selection.Toggle | src/screens/main/EditPreferencesScreen.tsx:98-100 | the item ends up selected exactly when it was not; an absent item is appended at the end; a present one is removed along with all its copies |
| Selection.TogglePresentKeepsOrder | src/screens/onboarding/CuisinesScreen.tsx:36 | removing a present item keeps the order of the rest |
| Selection.ToggleTwiceRestores | src/screens/onboarding/DietsScreen.tsx:30 | toggling an absent item twice gives the original list |
| Selection.DistinctCons | src/screens/onboarding/RecipesScreen.tsx:35 | a list with a head is duplicate-free exactly when the head is not in the tail and the tail is duplicate-free |
| Selection.RemoveAllKeepsDistinct | src/screens/onboarding/RecipesScreen.tsx:35 | filtering keeps a duplicate-free list duplicate-free |
| Selection.ToggleKeepsDistinct | src/screens/onboarding/AllergiesScreen.tsx:37 | toggling keeps a duplicate-free selection duplicate-free |
| Spoonacular.DifficultyOf | src/api/spoonacular.ts:362 | Easy exactly when the score is above 80; Medium exactly when it is in (60, 80]; Advanced exactly when it is at most 60 |
| Spoonacular.DifficultyMonotone | src/api/spoonacular.ts:362 | a higher score never gives a harder band |
| Spoonacular.StripTags | src/api/spoonacular.ts:363 | `replace(/<[^>]*>/g, '')` never lengthens the text and only keeps characters that were there |
| Spoonacular.NoTagCons | src/api/spoonacular.ts:363 | a character that is not `<`, in front of text with no `<` before a `>`, keeps that property |
| Spoonacular.StripTagsLeavesNoTag | src/api/spoonacular.ts:363 | in the stripped text no `<` comes before a `>` |
| Spoonacular.StripTagsIdentity | src/api/spoonacular.ts:363 | text with no `<` before a `>` is left as it is |
| Spoonacular.StripTagsIdempotent | src/api/spoonacular.ts:363 | stripping twice is stripping once |
| Spoonacular.StripTagsPlainText | src/api/spoonacular.ts:363 | text without `<` is left as it is |
| Spoonacular.StripTagsPlainPrefix | src/api/spoonacular.ts:363 | a prefix without `<` passes through unchanged |
| Spoonacular.StripTagsAtTag | src/api/spoonacular.ts:363 | a leading `<`, up to the first `>`, is removed |
| Spoonacular.StripTagsDropsTag | src/api/spoonacular.ts:363 | each `<` through the next `>` is removed and the text around it is kept |
| Spoonacular.StripTagsAppendUnclosed | src/api/spoonacular.ts:363 | text with no `>` after the stripped part is kept whole |
| Spoonacular.StripTagsKeepsUnclosed | src/api/spoonacular.ts:363 | a `<` with no later `>` is kept, together with everything after it |
| Spoonacular.Prefix | src/api/spoonacular.ts:363 | `substring(0, n)` is a prefix of the text, of length the smaller of n and the text's length |
| Spoonacular.Describe | src/api/spoonacular.ts:363 | the description ends in `...` even when nothing was cut; its length is min(150, stripped length) + 3; what precedes `...` is a tag-free prefix of the stripped summary |
| Spoonacular.Transform | src/api/spoonacular.ts:356-372 | the id is the canonical decimal string of the provider id and reads back as that id; the difficulty is the band of `spoonacularScore`; the description is `Describe` of the summary, so it is cut from the stripped summary and ends in `...`; the other twelve fields are copied from their provider fields |
| Spoonacular.DifficultyOnlyFromScore | src/api/spoonacular.ts:362 | recipes with the same `spoonacularScore` get the same difficulty, whatever `healthScore` and the other fields are |
| Spoonacular.TransformIdInjective | src/api/spoonacular.ts:357 | recipes with different provider ids get different app ids |
| Spoonacular.IngredientSearchParams | src/api/spoonacular.ts:236-240 | `ingredients` is the comma join of the list and overrides the caller's key; every other key is passed through unchanged |
| Spoonacular.IngredientsReadBack | src/api/spoonacular.ts:239 | the sent parameter splits back into the ingredient list, in order |
| Spoonacular.NoIngredientsSendsEmpty | src/api/spoonacular.ts:239 | an empty list sends the empty string |
| Server.WithDatabase | cooked-backend/server.js:48 | the rewritten URI contains `/cooked-app` |
| Server.NormalizeMongoUri | cooked-backend/server.js:37-53 | a URI is present after the rewrite exactly when it was before; the result is either the input or base + `/cooked-app` + query, and in the second case it names `/cooked-app` |
| Server.KeptWhenEmptyOrNamed | cooked-backend/server.js:38 | a missing or empty URI, or one that already contains `/cooked-app`, is unchanged |
| Server.KeptWhenNotMongo | cooked-backend/server.js:40 | a URI that contains neither `mongodb://` nor `mongodb+srv://` is unchanged |
| Server.AddedWhenNoHostPath | cooked-backend/server.js:46-48 | when the base has no `.net/`, `.com/` or `localhost/`, the result is base + `/cooked-app` + query |
| Server.AddedWhenEndsAtHost | cooked-backend/server.js:49-50 | when the base ends in `.net`, `.com` or `localhost`, `/cooked-app` is added the same way |
| Server.KeptWhenHostPath | cooked-backend/server.js:47-51 | a base with a path after a recognised host that does not end at the host is unchanged |
| Server.NormalizeIdempotent | cooked-backend/server.js:38-50 | a second pass of the rewrite changes nothing |
| Server.NoQuery | cooked-backend/server.js:42-44 | without `?` the base is the whole URI and the query is empty |
| Server.OneQuery | cooked-backend/server.js:42-44 | with one `?` the query is `?` plus what follows it, and a trailing empty `?` disappears |
| Server.SecondQueryDropped | cooked-backend/server.js:42-44 | only the text between the first and second `?` is kept; anything after a second `?` is dropped |
| OnboardingContext.AnswersStore.constructor | src/screens/onboarding/OnboardingContext.tsx:17-27 | the answers start as the defaults: empty strings and empty lists |
| Cuisines.CuisinesScreen.constructor | src/screens/onboarding/CuisinesScreen.tsx:33 | the selection starts as `answers.cuisines` |
| Cuisines.CuisinesScreen.ToggleCuisine | src/screens/onboarding/CuisinesScreen.tsx:35-37 | the new selection is the old one toggled |
| Cuisines.CuisinesScreen.HandleSubmit | src/screens/onboarding/CuisinesScreen.tsx:39-46 | `cuisines` becomes the selection, every other answer is unchanged, and the route is Diets |
| Cuisines.CuisinesScreen.HandleSkip | src/screens/onboarding/CuisinesScreen.tsx:48-55 | `cuisines` becomes American and Italian whatever is selected, every other answer is unchanged, and the route is Diets |
| Diets.DietsScreen.constructor | src/screens/onboarding/DietsScreen.tsx:27 | the selection starts as `answers.diets` |
| Diets.DietsScreen.ToggleDiet | src/screens/onboarding/DietsScreen.tsx:29-31 | the new selection is the old one toggled |
| Diets.DietsScreen.HandleSubmit | src/screens/onboarding/DietsScreen.tsx:33-40 | `diets` becomes the selection, every other answer is unchanged, and the route is Recipes |
| Diets.DietsScreen.HandleSkip | src/screens/onboarding/DietsScreen.tsx:42-49 | `diets` becomes "No specific diet" whatever is selected, every other answer is unchanged, and the route is Recipes |
| Recipes.RecipesScreen.constructor | src/screens/onboarding/RecipesScreen.tsx:32 | the selection starts as `answers.recipeTypes` |
| Recipes.RecipesScreen.ToggleRecipe | src/screens/onboarding/RecipesScreen.tsx:34-36 | the new selection is the old one toggled |
| Recipes.RecipesScreen.HandleSubmit | src/screens/onboarding/RecipesScreen.tsx:38-44 | `recipeTypes` becomes the selection, every other answer is unchanged, and the route is Allergies |
| Recipes.RecipesScreen.HandleSkip | src/screens/onboarding/RecipesScreen.tsx:46-52 | `recipeTypes` becomes Dinner and Lunch whatever is selected, every other answer is unchanged, and the route is Allergies |
| Allergies.SubmittedProfile | src/screens/onboarding/AllergiesScreen.tsx:48 | the submitted profile carries the given allergies and text, and agrees with the answers on every other field |
| Allergies.SkipIgnoresAnswers | src/screens/onboarding/AllergiesScreen.tsx:63 | whatever the selection and stored allergy answers, skipping submits "None" and an empty text |
| Allergies.OtherInputFollowsToggle | src/screens/onboarding/AllergiesScreen.tsx:108 | toggling "Other" shows the text box exactly when it was hidden |
| Allergies.OtherInputIgnoresOtherToggles | src/screens/onboarding/AllergiesScreen.tsx:108 | toggling any other allergy leaves the text box as it was |
| Allergies.OutcomeOf | src/screens/onboarding/AllergiesScreen.tsx:48-54 | the screen navigates to Completion exactly when the submission resolves, and otherwise shows the save error alert |
| Allergies.AllergiesScreen.constructor | src/screens/onboarding/AllergiesScreen.tsx:32-34 | the selection starts as `answers.allergies`, the text as `allergyOther` or "", and nothing is loading |
| Allergies.AllergiesScreen.ToggleAllergy | src/screens/onboarding/AllergiesScreen.tsx:36-38 | the new selection is the old one toggled |
| Allergies.AllergiesScreen.SetOther | src/screens/onboarding/AllergiesScreen.tsx:113 | the text becomes what was typed |
| Allergies.AllergiesScreen.HandleSubmit | src/screens/onboarding/AllergiesScreen.tsx:40-58 | the answers get the selection and the text, even when "Other" is not selected, and nothing else changes; the submitted profile is those answers; the outcome follows the submission; loading ends |
| Allergies.AllergiesScreen.HandleSkip | src/screens/onboarding/AllergiesScreen.tsx:60-73 | submits "None" and "" on top of the stored answers without changing them; the outcome follows the submission; loading ends |
| EditPreferences.AsRecord | src/screens/main/EditPreferencesScreen.tsx:87 | the draft holds the four lists under their keys, and each optional text answer under its key exactly when it is present, with its value |
| EditPreferences.ToggledRecord | src/screens/main/EditPreferencesScreen.tsx:91-103 | the toggled key becomes the toggled list (`Array.isArray` failing counts as empty), and every other key keeps its value |
| EditPreferences.ToggleFlipsOnlyPressedOption | src/screens/main/EditPreferencesScreen.tsx:98-100 | the pressed option's checkbox flips, and no other checkbox in any section changes |
| EditPreferences.ToggleNonListStartsFresh | src/screens/main/EditPreferencesScreen.tsx:93-94 | a key whose value is not a list becomes the one-item list |
| EditPreferences.ToggleTwiceRestoresRecord | src/screens/main/EditPreferencesScreen.tsx:98-100 | pressing an unchecked option twice gives back the whole record |
| EditPreferences.ToggleRecordKeepsDistinct | src/screens/main/EditPreferencesScreen.tsx:98-100 | a duplicate-free section stays duplicate-free |
| EditPreferences.SectionOf | src/screens/main/EditPreferencesScreen.tsx:176-204 | each tab edits one of the four list keys |
| EditPreferences.SectionOfInjective | src/screens/main/EditPreferencesScreen.tsx:201-204 | different tabs edit different keys |
| EditPreferences.EditPreferencesScreen.constructor | src/screens/main/EditPreferencesScreen.tsx:87-89 | the draft starts as the current preferences, on the cuisines tab, with nothing loading |
| EditPreferences.EditPreferencesScreen.SelectTab | src/screens/main/EditPreferencesScreen.tsx:188 | the pressed tab becomes active |
| EditPreferences.EditPreferencesScreen.ToggleSelection | src/screens/main/EditPreferencesScreen.tsx:91-103 | the new draft is the old one with the option toggled |
| EditPreferences.EditPreferencesScreen.PressOption | src/screens/main/EditPreferencesScreen.tsx:146 | a press on a shown option toggles it in the active tab's section, and flips that option's checkbox |
| EditPreferences.EditPreferencesScreen.HandleSave | src/screens/main/EditPreferencesScreen.tsx:105-129 | `onSave` gets the draft, followed by the success alert, exactly when the update resolves; otherwise only the error alert shows; loading ends on every path |
| Profile.KeepAlphanumeric | src/screens/main/ProfileScreen.tsx:121 | the result holds only ASCII letters and digits, and holds exactly those characters of the input |
| Profile.KeepAlphanumericChar | src/screens/main/ProfileScreen.tsx:121 | one character is kept exactly when it is an ASCII letter or digit |
| Profile.KeepAlphanumericAppend | src/screens/main/ProfileScreen.tsx:121 | filtering works piece by piece, so the kept characters keep their order and repeats |
| Profile.KeepAlphanumericIdentity | src/screens/main/ProfileScreen.tsx:121 | letters and digits alone are kept whole |
| Profile.KeepAlphanumericIdempotent | src/screens/main/ProfileScreen.tsx:121 | filtering twice is filtering once |
| Profile.LocalPart | src/screens/main/ProfileScreen.tsx:121-123 | `split('@')[0]` is a prefix of the email that has no `@` |
| Profile.DisplayName | src/screens/main/ProfileScreen.tsx:121 | the display name is the local part with every character other than an ASCII letter or digit removed, or "User" when that is empty or the email is missing; so it is never empty and only letters and digits |
| Profile.LocalPartWithoutAt | src/screens/main/ProfileScreen.tsx:121-123 | an email with no `@` is its own local part |
| Profile.LocalPartOfAddress | src/screens/main/ProfileScreen.tsx:121-123 | the local part of `local@domain` is `local`, whatever the domain |
| Profile.DisplayNameIgnoresDomain | src/screens/main/ProfileScreen.tsx:121 | the display name depends only on the text before the first `@` |
| Profile.DisplayNameOfAddress | src/screens/main/ProfileScreen.tsx:121 | the display name of `local@domain` is the letters and digits of `local`, or "User" when it has none |
| Profile.KeepAlphanumericDotted | src/screens/main/ProfileScreen.tsx:121 | filtering a dotted name drops the dot and keeps both halves in order |
| Profile.DisplayNameDropsPunctuation | src/screens/main/ProfileScreen.tsx:121 | `john.doe@domain` shows `johndoe`: a dot in the local part is dropped and both halves kept in order |
| Profile.DisplayNameOfPlainLocal | src/screens/main/ProfileScreen.tsx:121 | a local part made of letters and digits is the display name |
| Profile.DisplayNameFallsBack | src/screens/main/ProfileScreen.tsx:121 | a missing email, or a local part with no letter or digit, gives "User" |
| Profile.Handle | src/screens/main/ProfileScreen.tsx:123 | the handle is `@` followed by the raw local part, or `@user` when the email is missing or its local part is empty; the name after `@` is never empty and has no `@` |
| Profile.HandleOfAddress | src/screens/main/ProfileScreen.tsx:123 | the handle keeps the raw local part, punctuation included |
| Profile.Chips | src/screens/main/ProfileScreen.tsx:71-86 | a section is rendered, with its list, exactly when the list is present and non-empty |
| Profile.PreferenceSections | src/screens/main/ProfileScreen.tsx:158-161 | at most four sections are rendered, and none is empty |
| Profile.SectionShownIff | src/screens/main/ProfileScreen.tsx:158-161 | a topic's titled section appears, with its list, exactly when that list is present and non-empty |
| Profile.OtherAllergies | src/screens/main/ProfileScreen.tsx:163-168 | the other-allergy text is shown exactly when it is present and non-empty |
| Profile.LoadUserProfile | src/screens/main/ProfileScreen.tsx:35-50 | a request is made exactly when a non-empty token was read; without one the user stays null; the user is set only from a received profile; the alert shows exactly when the token read or the request failed; loading always ends |
| Login.Classify | src/screens/auth/LoginScreen.tsx:50-70 | a network error is a connection failure whatever the status; otherwise 400 means invalid credentials and 500 means the server is down; any other failure shows the server's non-empty message or the generic one |
| Login.AlertFor | src/screens/auth/LoginScreen.tsx:51-70 | the title is "Login Failed" exactly for bad credentials and unrecognised failures, "Connection Error" for network failures and "Server Error" for status 500; an unrecognised failure shows its own message |
| Login.NetworkErrorIgnoresResponse | src/screens/auth/LoginScreen.tsx:50 | the network test comes before any status or body check |
| Login.ServerMessageOnlyInLastBranch | src/screens/auth/LoginScreen.tsx:65-70 | the server's message matters only once the first three branches are ruled out |
| Login.SettledBy | src/screens/auth/LoginScreen.tsx:41-70 | a settled request navigates to LoginLoading exactly when the login succeeded; otherwise it shows the classified alert |
| Login.LoginScreen.constructor | src/screens/auth/LoginScreen.tsx:27-29 | both fields start empty, and nothing is loading |
| Login.LoginScreen.SetEmail | src/screens/auth/LoginScreen.tsx:113 | the email becomes what was typed |
| Login.LoginScreen.SetPassword | src/screens/auth/LoginScreen.tsx:124 | the password becomes what was typed |
| Login.LoginScreen.BeginLogin | src/screens/auth/LoginScreen.tsx:31-41 | ignored while a login is in flight; an empty field gives the "enter both" alert with no request and loading untouched; otherwise the request carries both fields and loading is on |
| Login.LoginScreen.FinishLogin | src/screens/auth/LoginScreen.tsx:41-73 | the settled outcome, with loading off on every path |
| EditProfile.ValidatedUpdate | src/screens/main/EditProfileScreen.tsx:66-73 | nothing is saved exactly when the name is all white space; otherwise the trimmed name, which has no white space at either end, is saved with the birthday unchanged |
| EditProfile.ValidationStable | src/screens/main/EditProfileScreen.tsx:72 | an already trimmed name saves the same update |
| EditProfile.ValidationIgnoresPadding | src/screens/main/EditProfileScreen.tsx:72 | white space around a name never changes what is saved |
| EditProfile.EditProfileScreen.constructor | src/screens/main/EditProfileScreen.tsx:37-38 | name and birthday start from the current profile, an absent field as "" |
| EditProfile.EditProfileScreen.SetName | src/screens/main/EditProfileScreen.tsx:116 | the name becomes what was typed |
| EditProfile.EditProfileScreen.PickBirthday | src/screens/main/EditProfileScreen.tsx:54-62 | the birthday becomes the picked, formatted date |
| EditProfile.EditProfileScreen.ClearBirthday | src/screens/main/EditProfileScreen.tsx:136 | the birthday becomes "" |
| EditProfile.EditProfileScreen.HandleSave | src/screens/main/EditProfileScreen.tsx:65-80 | a blank name gives the "enter your name" alert and leaves loading untouched; otherwise `onSave` gets the validated update exactly when it resolves, a failure gives the error alert, and loading ends |
| RecipeDetails.IsSavedIn | src/screens/main/RecipeDetailsScreen.tsx:62 | true exactly when some saved entry's `recipeId` is the decimal string of the id |
| RecipeDetails.OtherRecipesDoNotCount | src/screens/main/RecipeDetailsScreen.tsx:62 | an entry for a different id never makes the recipe count as saved |
| RecipeDetails.PostedEntryCounts | src/screens/main/RecipeDetailsScreen.tsx:62-76 | an entry whose `recipeId` is the posted id string is recognised by the saved check |
| RecipeDetails.DisplayedSummary | src/screens/main/RecipeDetailsScreen.tsx:159 | the shown summary is the same tag stripping as the card, uncut: tag-free and never longer than the summary |
| RecipeDetails.CardDescriptionIsDisplayedSummaryCut | src/screens/main/RecipeDetailsScreen.tsx:159 | the card description is the first 150 characters of the summary this page shows, followed by `...` |
| RecipeDetails.DisplayedSteps | src/screens/main/RecipeDetailsScreen.tsx:179 | only the first block's steps are listed, and none when there is no block |
| RecipeDetails.LaterBlocksIgnored | src/screens/main/RecipeDetailsScreen.tsx:179 | blocks after the first never change the listed steps |
| RecipeDetails.DeletePath | src/screens/main/RecipeDetailsScreen.tsx:72 | the delete goes under `/user/recipes/save/`, and what follows the prefix is exactly the recipe's decimal id |
| RecipeDetails.DeletePathInjective | src/screens/main/RecipeDetailsScreen.tsx:72 | two recipes share a delete path exactly when they are the same recipe |
| RecipeDetails.RecipeDetailsScreen.constructor | src/screens/main/RecipeDetailsScreen.tsx:33-37 | the page starts unsaved and not saving |
| RecipeDetails.RecipeDetailsScreen.CheckIfRecipeIsSaved | src/screens/main/RecipeDetailsScreen.tsx:58-66 | after a response the flag says whether the recipe is in the saved list; after a failure it is unchanged |
| RecipeDetails.RecipeDetailsScreen.HandleSaveRecipe | src/screens/main/RecipeDetailsScreen.tsx:68-86 | a saved recipe is deleted and an unsaved one is posted by its id string; the flag flips only on success, with the matching success alert; a failure shows the error alert; saving ends on every path |

## Left out

- HTTP transport is not modelled: the axios instances and interceptors, every endpoint wrapper, and `src/api/auth.ts` and `src/api/recipes.ts`. Their results enter the handlers as success flags or responses.
- Backend persistence and crypto are not modelled: Mongoose models and queries, bcrypt, JWT, and the in-memory server. In `connectDB`, only the URI rewrite at lines 37-53 is modelled; the connection, listener and exit are left out.
- The app has no response cache, retries, pagination, preference-to-query mapping, fallback recipes or recipe of the day; only unused constants exist. Nothing of the kind is modelled.
- The client and backend disagree on the saved-recipe and profile routes, and no backend saved-recipe store exists. The model only records which request the recipe page sends.
- The `updateProfile` payload mismatch (three arguments passed, one object taken) is not modelled; only the client-side validation is.
- `submitOnboardingProfile` is a no-op placeholder in the context. The allergy screen's model returns the profile it would submit.
- Spoonacular.Describe: lengths count characters, while `substring` counts UTF-16 code units, so the two differ for text outside the Basic Multilingual Plane.
- Spoonacular.Transform: the summary is always a string, as typed. A missing summary makes the source produce the text `undefined...`, which is not modelled.
- Spoonacular.Transform: the backend recipe schema calls the middle band `Intermediate`, while the client produces `Medium`. Only the client's band is modelled.
- Allergies.AllergiesScreen.HandleSubmit: states only the state after the request settles. The loading screen shown while it is pending is not modelled. The same holds for HandleSkip, EditPreferences.EditPreferencesScreen.HandleSave, EditProfile.EditProfileScreen.HandleSave and RecipeDetails.RecipeDetailsScreen.HandleSaveRecipe.
- Allergies.AllergiesScreen.HandleSubmit: the `setAnswers` updater reads the newest answers, while the submitted profile spreads the answers of the last render. The model runs the handler without an intervening update, so the two coincide.
- Locale date formatting and float formatting are not modelled: `toLocaleDateString` and the calories' `toFixed(0)`. The picker hands over the formatted birthday text.
- The date picker's own state (`date`, `showDatePicker`) is left out; only the `birthday` text is modelled.
- Rendering, styles, navigation stacks, animation and fonts are not modelled; navigation appears only as the route a handler goes to. DietsScreen goes to `Recipes`, which the onboarding navigator does not register. The model records the route as written and does not model the stack.
- Logout, the "coming soon" edit button and the created/saved tabs of the profile screen are not modelled; they hold no logic beyond an alert.
- Mock data and placeholders are not modelled: the YouTube helper and the home screen's hard-coded cards.
- The saved-recipes response is modelled as entries with a string `recipeId`. An entry with a numeric `recipeId` never matches under `===`; the model does not represent such entries.
- Server.NormalizeMongoUri: rewrites exactly as written. For a host other than `.net`, `.com` or `localhost` the base has no recognised host path, so `/cooked-app` is added even when a database is already named. For example, `mongodb://127.0.0.1:27017/shop` becomes `mongodb://127.0.0.1:27017/shop/cooked-app`.
- Text.IntToString: provider ids are assumed to be integers below 2^53. JavaScript loses precision above that bound and switches to exponent form (`1e+21`) from 10^21, and the model's unbounded integers do neither.
