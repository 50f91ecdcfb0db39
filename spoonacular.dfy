/**
 * Normalisation of a provider (Spoonacular) recipe into the app's recipe shape,
 * `transformSpoonacularRecipe` in src/api/spoonacular.ts, and the query parameters
 * that `searchRecipesByIngredients` sends. The HTTP transport around them is not
 * modelled.
 */
module Spoonacular {
  import opened Wrappers
  import opened Text

  datatype InstructionStep = InstructionStep(number: int, step: string)
  datatype AnalyzedInstruction = AnalyzedInstruction(name: string, steps: seq<InstructionStep>)
  datatype ExtendedIngredient = ExtendedIngredient(id: int, name: string, amount: real, unit: string)
  datatype Nutrient = Nutrient(name: string, amount: real, unit: string)
  datatype NutritionInfo = NutritionInfo(nutrients: seq<Nutrient>)

  /** A recipe as the provider returns it (the fields the app reads). */
  datatype ProviderRecipe = ProviderRecipe(
    id: int,
    title: string,
    image: string,
    imageType: string,
    readyInMinutes: int,
    servings: int,
    aggregateLikes: int,
    spoonacularScore: real,
    healthScore: real,
    summary: string,
    cuisines: seq<string>,
    dishTypes: seq<string>,
    diets: seq<string>,
    analyzedInstructions: seq<AnalyzedInstruction>,
    extendedIngredients: seq<ExtendedIngredient>,
    nutrition: Option<NutritionInfo>)

  datatype Difficulty = Easy | Medium | Advanced

  /** The app's recipe shape, as built by the transform. */
  datatype Recipe = Recipe(
    id: string,
    title: string,
    image: string,
    servingSize: int,
    minutes: int,
    difficulty: Difficulty,
    description: string,
    cuisines: seq<string>,
    dishTypes: seq<string>,
    diets: seq<string>,
    healthScore: real,
    likes: int,
    instructions: seq<AnalyzedInstruction>,
    ingredients: seq<ExtendedIngredient>,
    nutrition: Option<NutritionInfo>)

  /** Characters of stripped summary kept in a description. */
  const DescriptionLength := 150
  const Ellipsis := "..."

  /** Difficulty banded from the provider score alone: above 80 Easy, above 60 Medium, else Advanced. */
  function DifficultyOf(score: real): (d: Difficulty)
    ensures d == Easy <==> score > 80.0
    ensures d == Medium <==> 60.0 < score <= 80.0
    ensures d == Advanced <==> score <= 60.0
  {
    if score > 80.0 then Easy else if score > 60.0 then Medium else Advanced
  }

  /** Harder difficulties rank higher. */
  function Rank(d: Difficulty): nat {
    match d
    case Easy => 0
    case Medium => 1
    case Advanced => 2
  }

  /** A higher score never gives a harder difficulty. */
  lemma DifficultyMonotone(lower: real, higher: real)
    requires lower <= higher
    ensures Rank(DifficultyOf(higher)) <= Rank(DifficultyOf(lower))
  {
  }

  /** The text holds no tag: no `<` is followed, anywhere later, by a `>`. */
  predicate NoTag(t: string) {
    forall i, j :: 0 <= i < j < |t| && t[i] == '<' ==> t[j] != '>'
  }

  /**
   * `s.replace(/<[^>]*>/g, '')`: scanning left to right, each `<` together with
   * everything up to and including the next `>` is removed; a `<` with no `>`
   * after it is kept. The result is no longer than `s` and uses only its characters.
   */
  function StripTags(s: string): (r: string)
    ensures |r| <= |s|
    ensures forall c :: c in r ==> c in s
    decreases |s|
  {
    if s == [] then []
    else if s[0] == '<' && '>' in s[1..] then
      var rest := s[IndexOf(s[1..], '>') + 2..];
      var r := StripTags(rest);
      assert forall c :: c in rest ==> c in s;
      r
    else
      var r := StripTags(s[1..]);
      assert forall c :: c in s[1..] ==> c in s;
      [s[0]] + r
  }

  /** Putting a character in front of tag-free text keeps it tag-free, unless it opens a tag that `t` closes. */
  lemma NoTagCons(c: char, t: string)
    requires NoTag(t)
    requires c == '<' ==> '>' !in t
    ensures NoTag([c] + t)
  {
    var r := [c] + t;
    forall i, j | 0 <= i < j < |r| && r[i] == '<'
      ensures r[j] != '>'
    {
      assert r[j] == t[j - 1];
      if i > 0 {
        assert r[i] == t[i - 1];
      }
    }
  }

  /** Stripping leaves no tag behind. */
  lemma {:induction false} StripTagsLeavesNoTag(s: string)
    ensures NoTag(StripTags(s))
    decreases |s|
  {
    if s == [] {
    } else if s[0] == '<' && '>' in s[1..] {
      StripTagsLeavesNoTag(s[IndexOf(s[1..], '>') + 2..]);
    } else {
      StripTagsLeavesNoTag(s[1..]);
      NoTagCons(s[0], StripTags(s[1..]));
    }
  }

  /** Text that holds no tag is left as it is (in particular text with no `<`). */
  lemma {:induction false} StripTagsIdentity(t: string)
    requires NoTag(t)
    ensures StripTags(t) == t
    decreases |t|
  {
    if t != [] {
      if t[0] == '<' {
        forall j | 0 <= j < |t[1..]| ensures t[1..][j] != '>' {
          assert t[1..][j] == t[j + 1];
        }
      }
      assert NoTag(t[1..]) by {
        forall i, j | 0 <= i < j < |t[1..]| && t[1..][i] == '<' ensures t[1..][j] != '>' {
          assert t[1..][i] == t[i + 1] && t[1..][j] == t[j + 1];
        }
      }
      StripTagsIdentity(t[1..]);
      assert [t[0]] + t[1..] == t;
    }
  }

  /** Stripping twice is stripping once. */
  lemma StripTagsIdempotent(s: string)
    ensures StripTags(StripTags(s)) == StripTags(s)
  {
    StripTagsLeavesNoTag(s);
    StripTagsIdentity(StripTags(s));
  }

  /** Text with no `<` passes through unchanged. */
  lemma StripTagsPlainText(t: string)
    requires '<' !in t
    ensures StripTags(t) == t
  {
    StripTagsIdentity(t);
  }

  /** A prefix with no `<` is copied, and stripping continues after it. */
  lemma {:induction false} StripTagsPlainPrefix(a: string, x: string)
    requires '<' !in a
    ensures StripTags(a + x) == a + StripTags(x)
    decreases |a|
  {
    if a != [] {
      assert (a + x)[0] == a[0];
      assert (a + x)[1..] == a[1..] + x;
      assert a[0] != '<';
      assert StripTags(a + x) == [a[0]] + StripTags(a[1..] + x);
      StripTagsPlainPrefix(a[1..], x);
      assert a + StripTags(x) == [a[0]] + (a[1..] + StripTags(x));
    } else {
      assert a + x == x;
    }
  }

  /** A tag `<body>` at the start is removed in full. */
  lemma StripTagsAtTag(body: string, rest: string)
    requires '>' !in body
    ensures StripTags(['<'] + body + ['>'] + rest) == StripTags(rest)
  {
    var s := ['<'] + body + ['>'] + rest;
    assert s[1..] == body + ['>'] + rest;
    assert s[1..][..|body|] == body;
    IndexOfIs(s[1..], '>', |body|);
    assert s[|body| + 2..] == rest;
  }

  /** Each tag is removed together with what lies between its brackets. */
  lemma StripTagsDropsTag(a: string, body: string, rest: string)
    requires '<' !in a && '>' !in body
    ensures StripTags(a + ['<'] + body + ['>'] + rest) == a + StripTags(rest)
  {
    var tag := ['<'] + body + ['>'] + rest;
    assert a + ['<'] + body + ['>'] + rest == a + tag;
    StripTagsPlainPrefix(a, tag);
    StripTagsAtTag(body, rest);
  }

  /** Stripping splits at any point after which no `>` occurs. */
  lemma {:induction false} StripTagsAppendUnclosed(a: string, b: string)
    requires '>' !in b
    ensures StripTags(a + b) == StripTags(a) + b
    decreases |a|
  {
    if a == [] {
      assert a + b == b;
      StripTagsIdentity(b);
    } else {
      var s := a + b;
      assert s[0] == a[0];
      assert s[1..] == a[1..] + b;
      if a[0] == '<' && '>' in a[1..] {
        var k := IndexOf(a[1..], '>');
        assert s[1..][..k] == a[1..][..k];
        IndexOfIs(s[1..], '>', k);
        assert s[k + 2..] == a[k + 2..] + b;
        StripTagsAppendUnclosed(a[k + 2..], b);
      } else {
        assert '>' in a[1..] <==> '>' in s[1..];
        StripTagsAppendUnclosed(a[1..], b);
      }
    }
  }

  /** A `<` with no `>` after it is kept, and so is everything after it. */
  lemma StripTagsKeepsUnclosed(a: string, rest: string)
    requires '>' !in rest
    ensures StripTags(a + ['<'] + rest) == StripTags(a) + ['<'] + rest
  {
    assert a + ['<'] + rest == a + (['<'] + rest);
    StripTagsAppendUnclosed(a, ['<'] + rest);
  }

  /** `text.substring(0, n)`. */
  function Prefix(text: string, n: nat): (p: string)
    ensures |p| == if |text| < n then |text| else n
    ensures p <= text
  {
    if |text| <= n then text else text[..n]
  }

  /**
   * The card description: the summary without tags, cut to its first 150
   * characters, then "..." (also when nothing was cut).
   */
  function Describe(summary: string): (d: string)
    ensures |d| == (if |StripTags(summary)| < DescriptionLength then |StripTags(summary)| else DescriptionLength) + 3
    ensures EndsWith(d, Ellipsis)
    ensures d[..|d| - 3] <= StripTags(summary)
    ensures NoTag(d[..|d| - 3])
  {
    var text := StripTags(summary);
    var d := Prefix(text, DescriptionLength) + Ellipsis;
    assert d[..|d| - 3] == Prefix(text, DescriptionLength);
    StripTagsLeavesNoTag(summary);
    d
  }

  /**
   * `transformSpoonacularRecipe`: the id becomes its decimal string, the
   * difficulty is banded from `spoonacularScore` only, the description is the
   * tag-stripped, truncated summary, and every other field is copied.
   */
  function Transform(p: ProviderRecipe): (r: Recipe)
    ensures r.id == IntToString(p.id) && ParseInt(r.id) == p.id
    ensures r.difficulty == DifficultyOf(p.spoonacularScore)
    ensures r.description == Describe(p.summary)
    ensures EndsWith(r.description, Ellipsis) && |r.description| <= DescriptionLength + 3
    ensures r.description[..|r.description| - 3] <= StripTags(p.summary)
    ensures r.title == p.title && r.image == p.image
    ensures r.servingSize == p.servings && r.minutes == p.readyInMinutes
    ensures r.cuisines == p.cuisines && r.dishTypes == p.dishTypes && r.diets == p.diets
    ensures r.healthScore == p.healthScore && r.likes == p.aggregateLikes
    ensures r.instructions == p.analyzedInstructions && r.ingredients == p.extendedIngredients
    ensures r.nutrition == p.nutrition
  {
    IntToStringRoundTrip(p.id);
    Recipe(
      id := IntToString(p.id),
      title := p.title,
      image := p.image,
      servingSize := p.servings,
      minutes := p.readyInMinutes,
      difficulty := DifficultyOf(p.spoonacularScore),
      description := Describe(p.summary),
      cuisines := p.cuisines,
      dishTypes := p.dishTypes,
      diets := p.diets,
      healthScore := p.healthScore,
      likes := p.aggregateLikes,
      instructions := p.analyzedInstructions,
      ingredients := p.extendedIngredients,
      nutrition := p.nutrition)
  }

  /** Difficulty depends on `spoonacularScore` and nothing else (`healthScore` included). */
  lemma DifficultyOnlyFromScore(p: ProviderRecipe, q: ProviderRecipe)
    requires p.spoonacularScore == q.spoonacularScore
    ensures Transform(p).difficulty == Transform(q).difficulty
  {
  }

  /** Two provider recipes with different ids never share an app id. */
  lemma TransformIdInjective(p: ProviderRecipe, q: ProviderRecipe)
    requires p.id != q.id
    ensures Transform(p).id != Transform(q).id
  {
    IntToStringInjective(p.id, q.id);
  }

  /** The values a request parameter can take. */
  datatype ParamValue = Number(n: int) | Flag(b: bool) | Str(s: string)

  type QueryParams = map<string, ParamValue>

  const IngredientsKey := "ingredients"

  /**
   * The parameters `searchRecipesByIngredients` sends: the caller's parameters,
   * with `ingredients` set to the comma-join of the list (overriding a caller's
   * parameter of that name).
   */
  function IngredientSearchParams(ingredients: seq<string>, params: QueryParams): (q: QueryParams)
    ensures IngredientsKey in q && q[IngredientsKey] == Str(Join(ingredients, ','))
    ensures forall k :: k != IngredientsKey ==> (k in q <==> k in params)
    ensures forall k :: k in params && k != IngredientsKey ==> q[k] == params[k]
  {
    params[IngredientsKey := Str(Join(ingredients, ','))]
  }

  /** The provider, splitting the parameter at commas, reads back the list in order. */
  lemma IngredientsReadBack(ingredients: seq<string>, params: QueryParams)
    requires |ingredients| >= 1
    requires forall i :: 0 <= i < |ingredients| ==> ',' !in ingredients[i]
    ensures Split(IngredientSearchParams(ingredients, params)[IngredientsKey].s, ',') == ingredients
  {
    SplitJoin(ingredients, ',');
  }

  /** An empty list sends the empty string. */
  lemma NoIngredientsSendsEmpty(params: QueryParams)
    ensures IngredientSearchParams([], params)[IngredientsKey] == Str("")
  {
  }
}
