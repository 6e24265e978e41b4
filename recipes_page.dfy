/**
 The zero-waste adaptation planner of the recipes page: the user's
 comma-separated ingredient text is normalised into a set of tokens, the
 recipe's ingredients are split into those the user has and those missing,
 and an ordered list of advice lines is built along one of two branches.
 Also the favourite toggle and what the plan view derives from a plan.
 */
module RecipesPage {
  import opened Text
  import opened Lists

  /** A recipe of the catalogue; image, rating and the other display-only
      fields are not part of the model. */
  datatype Recipe = Recipe(id: int, title: string, ingredients: seq<string>, baseSteps: seq<string>)

  /** What the planner returns: the two partitions and the plan lines. */
  datatype AdaptationPlan = AdaptationPlan(have: seq<string>, missing: seq<string>, plan: seq<string>)

  const PastaRecipe := Recipe(1, "AI Fusion Pasta",
    ["Pasta", "Olive Oil", "Garlic", "Parmesan"],
    ["Boil pasta in salted water.", "Saut\U{00E9} garlic in oil, add sauce.", "Toss pasta with sauce and top with parmesan."])

  const Catalogue: seq<Recipe> := [
    PastaRecipe,
    Recipe(2, "Smart Stir Fry",
      ["Mixed Vegetables", "Soy Sauce", "Sesame Oil", "Rice"],
      ["Heat oil in wok.", "Stir-fry vegetables on high heat.", "Season with soy sauce and serve on rice."]),
    Recipe(3, "Quantum Quinoa Bowl",
      ["Quinoa", "Avocado", "Greens", "Lime"],
      ["Cook quinoa until fluffy.", "Assemble bowl with greens and avocado.", "Dress with lime and olive oil."]),
    Recipe(4, "Cyber Curry",
      ["Onion", "Tomato", "Spices", "Coconut Milk"],
      ["Saut\U{00E9} onions and spices.", "Add tomato and simmer.", "Pour coconut milk and cook until thick."]),
    Recipe(5, "Holographic Hummus",
      ["Chickpeas", "Tahini", "Lemon", "Garlic"],
      ["Blend chickpeas with tahini and lemon.", "Add garlic and seasoning.", "Adjust texture with oil or water."]),
    Recipe(6, "Neural Network Noodles",
      ["Noodles", "Broth", "Spring Onions", "Protein"],
      ["Prepare the broth.", "Cook noodles until tender.", "Assemble and garnish with spring onions and protein."])
  ]

  predicate IsAsciiLetter(c: char) {
    ('A' <= c <= 'Z') || ('a' <= c <= 'z')
  }

  /** A name that starts and ends with a letter lower-cases to a token the
      user can type. */
  predicate LetterEnded(x: string) {
    x != [] && IsAsciiLetter(x[0]) && IsAsciiLetter(x[|x| - 1])
  }

  lemma LetterEndedIsMatchable(x: string)
    requires LetterEnded(x)
    ensures IsNormalToken(Lower(x))
  {
  }

  /** The catalogue starts with the pasta recipe, and every ingredient name in
      it lower-cases to a normal token, so each can be matched by typing it
      (the case of `PaddedIngredientNeverMatches` never arises). */
  lemma CatalogueIngredientsMatchable()
    ensures Catalogue[0] == PastaRecipe
    ensures forall r, x :: r in Catalogue && x in r.ingredients ==> IsNormalToken(Lower(x))
  {
    forall r | r in Catalogue ensures forall x :: x in r.ingredients ==> LetterEnded(x) {
    }
    forall r, x | r in Catalogue && x in r.ingredients ensures IsNormalToken(Lower(x)) {
      LetterEndedIsMatchable(x);
    }
  }

  /** The static substitution table, keyed by lower-cased ingredient name. */
  const SubstitutionMap: map<string, seq<string>> := map[
    "olive oil" := ["any neutral oil", "butter"],
    "garlic" := ["onion", "garlic powder"],
    "pasta" := ["rice", "noodles"],
    "quinoa" := ["rice", "millet"],
    "soy sauce" := ["tamari", "salt + vinegar"],
    "coconut milk" := ["yogurt", "cream"],
    "parmesan" := ["yogurt", "crumbled paneer"],
    "chickpeas" := ["white beans", "lentils"]
  ]

  // ---------------------------------------------------------------------
  // The user's ingredient set
  // ---------------------------------------------------------------------

  /** A token as the planner compares it: non-empty, lower-case, and neither
      starting nor ending with a space. */
  predicate IsNormalToken(t: string) {
    && t != []
    && !IsSpace(t[0]) && !IsSpace(t[|t| - 1])
    && forall i :: 0 <= i < |t| ==> !IsUpper(t[i])
  }

  /** `x.trim().toLowerCase()`. */
  function Normalize(token: string): string {
    Lower(Trim(token))
  }

  /** A token vanishes exactly when it is blank; otherwise it is a normal token. */
  lemma NormalizeSpec(token: string)
    ensures Normalize(token) == [] <==> AllSpace(token)
    ensures Normalize(token) != [] ==> IsNormalToken(Normalize(token))
  {
    TrimEnds(token);
    BlankIffTrimEmpty(token);
    LowerOfTrimmed(Trim(token));
  }

  /** Lower-casing keeps a string's length and whether its ends are spaces. */
  lemma LowerOfTrimmed(t: string)
    requires t == [] || (!IsSpace(t[0]) && !IsSpace(t[|t| - 1]))
    ensures Lower(t) == [] <==> t == []
    ensures t != [] ==> IsNormalToken(Lower(t))
  {
  }

  lemma BlankIffTrimEmpty(s: string)
    ensures Trim(s) == [] <==> AllSpace(s)
  {
    TrimIsMiddleSlice(s);
    if AllSpace(s) {
      TrimAllSpace(s);
    } else if Trim(s) == [] {
      var i, j :| 0 <= i <= j <= |s| && Trim(s) == s[i..j] && AllSpace(s[..i]) && AllSpace(s[j..]);
      forall k | 0 <= k < |s| ensures IsSpace(s[k]) {
        if k < i {
          assert s[k] == s[..i][k];
        } else {
          assert s[k] == s[j..][k - j];
        }
      }
    }
  }

  /** `.map(x => x.trim().toLowerCase()).filter(Boolean)` over the pieces. */
  function NormalizedTokens(pieces: seq<string>): seq<string>
    decreases |pieces|
  {
    if pieces == [] then []
    else
      var n := Normalize(pieces[0]);
      (if n == [] then [] else [n]) + NormalizedTokens(pieces[1..])
  }

  /** `new Set(userIngText.split(",").map(...).filter(Boolean))`. */
  function UserSet(userIngText: string): set<string> {
    set t | t in NormalizedTokens(Split(userIngText, ','))
  }

  lemma {:induction false} NormalizedTokensAreNormal(pieces: seq<string>)
    ensures forall t :: t in NormalizedTokens(pieces) ==> IsNormalToken(t)
    decreases |pieces|
  {
    if pieces != [] {
      var n := Normalize(pieces[0]);
      assert NormalizedTokens(pieces) == (if n == [] then [] else [n]) + NormalizedTokens(pieces[1..]);
      NormalizeSpec(pieces[0]);
      NormalizedTokensAreNormal(pieces[1..]);
    }
  }

  /** Every member of the user's set is non-empty, trimmed and lower-case. */
  lemma UserSetIsNormal(userIngText: string)
    ensures forall t :: t in UserSet(userIngText) ==> IsNormalToken(t)
  {
    NormalizedTokensAreNormal(Split(userIngText, ','));
  }

  lemma NormalizedTokensCons(x: string, rest: seq<string>)
    ensures NormalizedTokens([x] + rest) == (if Normalize(x) == [] then [] else [Normalize(x)]) + NormalizedTokens(rest)
  {
    assert ([x] + rest)[0] == x && ([x] + rest)[1..] == rest;
  }

  lemma ConcatAssoc(x: seq<string>, y: seq<string>, z: seq<string>)
    ensures x + (y + z) == (x + y) + z
  {
  }

  lemma {:induction false} NormalizedTokensConcat(a: seq<string>, b: seq<string>)
    ensures NormalizedTokens(a + b) == NormalizedTokens(a) + NormalizedTokens(b)
    decreases |a|
  {
    if a == [] {
      assert a + b == b;
    } else {
      var x, tail := a[0], a[1..];
      assert a == [x] + tail;
      assert a + b == [x] + (tail + b);
      var head: seq<string> := if Normalize(x) == [] then [] else [Normalize(x)];
      var tb, t, nb := NormalizedTokens(tail + b), NormalizedTokens(tail), NormalizedTokens(b);
      NormalizedTokensCons(x, tail + b);
      NormalizedTokensCons(x, tail);
      NormalizedTokensConcat(tail, b);
      assert tb == t + nb;
      ConcatAssoc(head, t, nb);
    }
  }

  lemma SplitAtComma(a: string, b: string)
    ensures Split(a + "," + b, ',') == Split(a, ',') + Split(b, ',')
  {
    assert a + "," + b == a + [','] + b;
    SplitConcat(a, b, ',');
  }

  lemma TokensAtComma(a: string, b: string)
    ensures NormalizedTokens(Split(a + "," + b, ',')) == NormalizedTokens(Split(a, ',')) + NormalizedTokens(Split(b, ','))
  {
    SplitAtComma(a, b);
    NormalizedTokensConcat(Split(a, ','), Split(b, ','));
  }

  lemma ElementsOfConcat(x: seq<string>, y: seq<string>)
    ensures (set t | t in x + y) == (set t | t in x) + (set t | t in y)
  {
  }

  /** A comma splits the input into two independent halves. */
  lemma UserSetCommaSplit(a: string, b: string)
    ensures UserSet(a + "," + b) == UserSet(a) + UserSet(b)
  {
    TokensAtComma(a, b);
    ElementsOfConcat(NormalizedTokens(Split(a, ',')), NormalizedTokens(Split(b, ',')));
  }

  /** A piece without commas contributes its normalised form, if not blank. */
  lemma UserSetOfToken(t: string)
    requires ',' !in t
    ensures UserSet(t) == if AllSpace(t) then {} else {Normalize(t)}
  {
    SplitNoSeparator(t, ',');
    NormalizeSpec(t);
    assert [t][1..] == [];
    var n := Normalize(t);
    assert NormalizedTokens([t]) == (if n == [] then [] else [n]) + NormalizedTokens([]);
    assert NormalizedTokens([t]) == if n == [] then [] else [n];
  }

  /** Spaces around a token do not matter. */
  lemma UserSetIgnoresPadding(p: string, t: string, q: string)
    requires AllSpace(p) && AllSpace(q) && ',' !in t
    ensures UserSet(p + t + q) == UserSet(t)
  {
    assert ',' !in p + t + q by {
      forall k | 0 <= k < |p + t + q| ensures (p + t + q)[k] != ',' {
        if k < |p| {
          assert (p + t + q)[k] == p[k];
        } else if k < |p| + |t| {
          assert (p + t + q)[k] == t[k - |p|];
        } else {
          assert (p + t + q)[k] == q[k - |p| - |t|];
        }
      }
    }
    UserSetOfToken(p + t + q);
    UserSetOfToken(t);
    TrimIgnoresPadding(p, t, q);
    BlankIffTrimEmpty(t);
    BlankIffTrimEmpty(p + t + q);
  }

  lemma UserSetOfEmpty()
    ensures UserSet("") == {}
  {
    assert Split("", ',') == [[]];
    assert Normalize([]) == [];
    assert NormalizedTokens([[]]) == [] + NormalizedTokens([]);
  }

  lemma UserSetTrailingComma(a: string)
    ensures UserSet(a + ",") == UserSet(a)
  {
    UserSetCommaSplit(a, "");
    UserSetOfEmpty();
    assert a + "," + "" == a + ",";
  }

  lemma UserSetLeadingComma(a: string)
    ensures UserSet("," + a) == UserSet(a)
  {
    var s := "," + a;
    assert s[0] == ',' && s[1..] == a;
    assert Split(s, ',') == [[]] + Split(a, ',');
    assert Normalize([]) == [];
    var ps := [[]] + Split(a, ',');
    assert ps[1..] == Split(a, ',');
    assert NormalizedTokens(ps) == NormalizedTokens(Split(a, ','));
  }

  lemma UserSetDoubledComma(a: string, b: string)
    ensures UserSet(a + ",," + b) == UserSet(a + "," + b)
  {
    var cb := "," + b;
    assert a + ",," + b == a + "," + cb;
    calc {
      UserSet(a + ",," + b);
      UserSet(a + "," + cb);
      { UserSetCommaSplit(a, cb); }
      UserSet(a) + UserSet(cb);
      { UserSetLeadingComma(b); }
      UserSet(a) + UserSet(b);
      { UserSetCommaSplit(a, b); }
      UserSet(a + "," + b);
    }
  }

  /** Empty tokens, from doubled, leading or trailing commas, add nothing. */
  lemma UserSetIgnoresEmptyTokens(a: string, b: string)
    ensures UserSet(a + ",," + b) == UserSet(a + "," + b)
    ensures UserSet(a + ",") == UserSet(a)
    ensures UserSet("," + a) == UserSet(a)
  {
    UserSetDoubledComma(a, b);
    UserSetTrailingComma(a);
    UserSetLeadingComma(a);
  }

  lemma NormalizeLower(t: string)
    ensures Normalize(Lower(t)) == Normalize(t)
  {
    TrimLower(t);
    LowerIdempotent(Trim(t));
  }

  lemma {:induction false} NormalizedTokensLower(pieces: seq<string>, lowered: seq<string>)
    requires |lowered| == |pieces|
    requires forall k :: 0 <= k < |pieces| ==> lowered[k] == Lower(pieces[k])
    ensures NormalizedTokens(lowered) == NormalizedTokens(pieces)
    decreases |pieces|
  {
    if pieces != [] {
      NormalizeLower(pieces[0]);
      assert Normalize(lowered[0]) == Normalize(pieces[0]);
      assert forall k :: 0 <= k < |pieces[1..]| ==> lowered[1..][k] == Lower(pieces[1..][k]);
      NormalizedTokensLower(pieces[1..], lowered[1..]);
    }
  }

  /** Upper and lower case in the input do not matter. */
  lemma UserSetIgnoresCase(userIngText: string)
    ensures UserSet(Lower(userIngText)) == UserSet(userIngText)
  {
    SplitLower(userIngText);
    NormalizedTokensLower(Split(userIngText, ','), Split(Lower(userIngText), ','));
  }

  /** Input made only of commas and spaces names no ingredient at all. */
  lemma {:induction false} BlankInputHasNoTokens(userIngText: string)
    requires forall i :: 0 <= i < |userIngText| ==> userIngText[i] == ',' || IsSpace(userIngText[i])
    ensures UserSet(userIngText) == {}
    decreases |userIngText|
  {
    if ',' in userIngText {
      var i :| 0 <= i < |userIngText| && userIngText[i] == ',';
      var a, b := userIngText[..i], userIngText[i + 1..];
      assert userIngText == a + "," + b;
      assert forall k :: 0 <= k < |a| ==> a[k] == userIngText[k];
      assert forall k :: 0 <= k < |b| ==> b[k] == userIngText[i + 1 + k];
      BlankInputHasNoTokens(a);
      BlankInputHasNoTokens(b);
      UserSetCommaSplit(a, b);
    } else {
      UserSetOfToken(userIngText);
    }
  }

  // ---------------------------------------------------------------------
  // The have / missing partition
  // ---------------------------------------------------------------------

  /** `recipe.ingredients.filter(i => userSet.has(i.toLowerCase()))`. */
  function Have(ingredients: seq<string>, userSet: set<string>): (have: seq<string>)
    ensures forall x :: x in have <==> x in ingredients && Lower(x) in userSet
    ensures IsSubsequence(have, ingredients)
    decreases |ingredients|
  {
    if ingredients == [] then []
    else
      var rest := Have(ingredients[1..], userSet);
      assert ingredients == [ingredients[0]] + ingredients[1..];
      if Lower(ingredients[0]) in userSet then [ingredients[0]] + rest else rest
  }

  /** `recipe.ingredients.filter(i => !userSet.has(i.toLowerCase()))`. */
  function Missing(ingredients: seq<string>, userSet: set<string>): (missing: seq<string>)
    ensures forall x :: x in missing <==> x in ingredients && Lower(x) !in userSet
    ensures IsSubsequence(missing, ingredients)
    decreases |ingredients|
  {
    if ingredients == [] then []
    else
      var rest := Missing(ingredients[1..], userSet);
      assert ingredients == [ingredients[0]] + ingredients[1..];
      if Lower(ingredients[0]) in userSet then rest else [ingredients[0]] + rest
  }

  /** Every recipe ingredient lands in exactly one of the two lists: the two
      lengths add up and the two multisets make up the recipe's. */
  lemma {:induction false} PartitionMultiset(ingredients: seq<string>, userSet: set<string>)
    ensures multiset(Have(ingredients, userSet)) + multiset(Missing(ingredients, userSet)) == multiset(ingredients)
    decreases |ingredients|
  {
    if ingredients != [] {
      var head, tail := ingredients[0], ingredients[1..];
      assert ingredients == [head] + tail;
      HaveCons(head, tail, userSet);
      MissingCons(head, tail, userSet);
      PartitionMultiset(tail, userSet);
      assert multiset(ingredients) == multiset([head]) + multiset(tail);
    }
  }

  lemma Partition(ingredients: seq<string>, userSet: set<string>)
    ensures |Have(ingredients, userSet)| + |Missing(ingredients, userSet)| == |ingredients|
    ensures multiset(Have(ingredients, userSet)) + multiset(Missing(ingredients, userSet)) == multiset(ingredients)
  {
    PartitionMultiset(ingredients, userSet);
    assert |multiset(Have(ingredients, userSet)) + multiset(Missing(ingredients, userSet))| == |multiset(ingredients)|;
  }

  /** No name is in both lists. */
  lemma PartitionDisjoint(ingredients: seq<string>, userSet: set<string>)
    ensures forall x :: !(x in Have(ingredients, userSet) && x in Missing(ingredients, userSet))
  {
  }

  /** A recipe ingredient is compared only lower-cased, never trimmed: one
      with a space at either end is always missing. */
  lemma PaddedIngredientNeverMatches(ingredients: seq<string>, userIngText: string, x: string)
    requires x in ingredients && x != []
    requires IsSpace(x[0]) || IsSpace(x[|x| - 1])
    ensures x !in Have(ingredients, UserSet(userIngText))
    ensures x in Missing(ingredients, UserSet(userIngText))
  {
    UserSetIsNormal(userIngText);
    assert !IsNormalToken(Lower(x));
  }

  // ---------------------------------------------------------------------
  // The plan lines
  // ---------------------------------------------------------------------

  const AdaptedStepsHeader := "Adapted steps (use what you have):"
  const EverythingLine := "You have everything \U{2014} follow the original steps."
  const NoMatchLine := "No core ingredients detected from your input."

  const ZeroWasteHeader := "Zero-waste options & tips:"
  const Bullet := "\U{2022} "

  /** The fixed lines of the no-match branch. */
  const NoMatchTips: seq<string> := [
    NoMatchLine,
    ZeroWasteHeader,
    Bullet + "Use vegetable peels/ends to make a quick stock.",
    Bullet + "Combine leftover grains + any veg + a sauce to create a bowl.",
    Bullet + "Roast scraps for crunchy salad toppers.",
    Bullet + "If you share what you have (comma-separated), I can tailor steps."
  ]

  function YouHaveLine(have: seq<string>): string {
    "You have: " + Join(have, ", ") + " \U{2014} great, we'll use these."
  }

  function MissingLine(missing: seq<string>): string {
    "Missing: " + Join(missing, ", ") + "."
  }

  /** Step `idx` (from 0) of the recipe, numbered from 1. */
  function StepLine(idx: nat, step: string): string {
    NatToString(idx + 1) + ". " + step
  }

  /** The advice for one missing ingredient: its alternatives joined with
      " or " when the table has its lower-cased name, a fallback otherwise. */
  function SubstitutionLine(table: map<string, seq<string>>, m: string): string {
    var key := Lower(m);
    if key in table then "Substitute for " + m + ": " + Join(table[key], " or ") + "."
    else "No direct substitution found for " + m + ". Use pantry staples or improvise."
  }

  /** The numbered steps, one line per step and in step order. */
  function StepLines(steps: seq<string>): (lines: seq<string>)
    ensures |lines| == |steps|
    ensures forall i :: 0 <= i < |steps| ==> lines[i] == StepLine(i, steps[i])
    decreases |steps|
  {
    if steps == [] then []
    else
      var prefix := steps[..|steps| - 1];
      assert forall i :: 0 <= i < |prefix| ==> prefix[i] == steps[i];
      StepLines(prefix) + [StepLine(|steps| - 1, steps[|steps| - 1])]
  }

  /** The advice lines, one per missing ingredient and in the same order. */
  function SubstitutionLines(table: map<string, seq<string>>, missing: seq<string>): (lines: seq<string>)
    ensures |lines| == |missing|
    ensures forall j :: 0 <= j < |missing| ==> lines[j] == SubstitutionLine(table, missing[j])
    decreases |missing|
  {
    Map(m => SubstitutionLine(table, m), missing)
  }

  /** The tail of a matched plan, after the steps. */
  function AdviceLines(table: map<string, seq<string>>, missing: seq<string>): seq<string> {
    if |missing| > 0 then [MissingLine(missing)] + SubstitutionLines(table, missing) else [EverythingLine]
  }

  /** The lines the planner emits for a recipe whose steps are `steps`. */
  function PlanLines(table: map<string, seq<string>>, steps: seq<string>, have: seq<string>, missing: seq<string>): seq<string> {
    if |have| > 0 then [YouHaveLine(have), AdaptedStepsHeader] + StepLines(steps) + AdviceLines(table, missing)
    else NoMatchTips
  }

  /** The value `buildZeroWastePlan(recipe, userIngText)` returns when the page's
      substitution table is `table`. */
  function ZeroWastePlan(table: map<string, seq<string>>, recipe: Recipe, userIngText: string): AdaptationPlan {
    PlanFor(table, recipe, UserSet(userIngText))
  }

  /** The planner once the user's set is known. */
  function PlanFor(table: map<string, seq<string>>, recipe: Recipe, userSet: set<string>): AdaptationPlan {
    var have := Have(recipe.ingredients, userSet);
    var missing := Missing(recipe.ingredients, userSet);
    AdaptationPlan(have, missing, PlanLines(table, recipe.baseSteps, have, missing))
  }

  /** `recipe.baseSteps.forEach((s, idx) => plan.push(...))`. */
  method PushStepLines(plan: seq<string>, steps: seq<string>) returns (out: seq<string>)
    ensures out == plan + StepLines(steps)
  {
    out := plan;
    var idx := 0;
    while idx < |steps|
      invariant idx <= |steps|
      invariant out == plan + StepLines(steps[..idx])
    {
      assert steps[..idx + 1][..idx] == steps[..idx];
      out := out + [StepLine(idx, steps[idx])];
      idx := idx + 1;
    }
    assert steps[..idx] == steps;
  }

  /** `missing.forEach(m => plan.push(...))`. */
  method PushSubstitutionLines(plan: seq<string>, table: map<string, seq<string>>, missing: seq<string>) returns (out: seq<string>)
    ensures out == plan + SubstitutionLines(table, missing)
  {
    out := plan;
    var j := 0;
    while j < |missing|
      invariant j <= |missing|
      invariant out == plan + SubstitutionLines(table, missing[..j])
    {
      assert missing[..j + 1][..j] == missing[..j];
      out := out + [SubstitutionLine(table, missing[j])];
      j := j + 1;
    }
    assert missing[..j] == missing;
  }

  /** The pushes of `buildZeroWastePlan` once the two lists are known. */
  method FillPlan(table: map<string, seq<string>>, steps: seq<string>, have: seq<string>, missing: seq<string>) returns (plan: seq<string>)
    ensures plan == PlanLines(table, steps, have, missing)
  {
    plan := [];
    if |have| > 0 {
      plan := plan + [YouHaveLine(have)];
      plan := plan + [AdaptedStepsHeader];
      assert plan == [YouHaveLine(have), AdaptedStepsHeader];
      plan := PushStepLines(plan, steps);
      ghost var head := plan;
      if |missing| > 0 {
        plan := plan + [MissingLine(missing)];
        plan := PushSubstitutionLines(plan, table, missing);
        assert plan == head + ([MissingLine(missing)] + SubstitutionLines(table, missing));
      } else {
        plan := plan + [EverythingLine];
      }
      assert plan == head + AdviceLines(table, missing);
    } else {
      plan := plan + NoMatchTips;
    }
  }

  /** `buildZeroWastePlan`: the user's set, the two filtered lists, then the plan. */
  method BuildZeroWastePlan(table: map<string, seq<string>>, recipe: Recipe, userIngText: string) returns (result: AdaptationPlan)
    ensures result == ZeroWastePlan(table, recipe, userIngText)
  {
    var userSet := UserSet(userIngText);
    var have := Have(recipe.ingredients, userSet);
    var missing := Missing(recipe.ingredients, userSet);
    var plan := FillPlan(table, recipe.baseSteps, have, missing);
    result := AdaptationPlan(have, missing, plan);
  }

  // ---------------------------------------------------------------------
  // Properties of the plan
  // ---------------------------------------------------------------------

  lemma {:induction false} MissingAll(ingredients: seq<string>, userSet: set<string>)
    requires forall x :: x in ingredients ==> Lower(x) !in userSet
    ensures Missing(ingredients, userSet) == ingredients
    ensures Have(ingredients, userSet) == []
    decreases |ingredients|
  {
    if ingredients != [] {
      assert ingredients[0] in ingredients;
      assert forall x :: x in ingredients[1..] ==> x in ingredients;
      MissingAll(ingredients[1..], userSet);
    }
  }

  lemma {:induction false} HaveAll(ingredients: seq<string>, userSet: set<string>)
    requires forall x :: x in ingredients ==> Lower(x) in userSet
    ensures Have(ingredients, userSet) == ingredients
    ensures Missing(ingredients, userSet) == []
    decreases |ingredients|
  {
    if ingredients != [] {
      assert ingredients[0] in ingredients;
      assert forall x :: x in ingredients[1..] ==> x in ingredients;
      HaveAll(ingredients[1..], userSet);
    }
  }

  lemma MatchedShape(table: map<string, seq<string>>, steps: seq<string>, have: seq<string>, missing: seq<string>)
    requires |have| > 0
    ensures PlanLines(table, steps, have, missing) == [YouHaveLine(have), AdaptedStepsHeader] + StepLines(steps) + AdviceLines(table, missing)
  {
  }

  /** The opening lines of a matched plan. */
  lemma MatchedHead(table: map<string, seq<string>>, steps: seq<string>, have: seq<string>, missing: seq<string>)
    requires |have| > 0
    ensures var lines := PlanLines(table, steps, have, missing);
      && |lines| > 2 + |steps|
      && lines[0] == YouHaveLine(have)
      && lines[1] == AdaptedStepsHeader
      && forall i :: 0 <= i < |steps| ==> lines[2 + i] == StepLine(i, steps[i])
  {
    MatchedShape(table, steps, have, missing);
    var lines := PlanLines(table, steps, have, missing);
    var stepLines := StepLines(steps);
    var advice := AdviceLines(table, missing);
    assert |advice| > 0;
    forall i | 0 <= i < |steps| ensures lines[2 + i] == StepLine(i, steps[i]) {
      assert lines[2 + i] == stepLines[i];
    }
  }

  /** The closing lines of a matched plan with nothing missing. */
  lemma MatchedTailEverything(table: map<string, seq<string>>, steps: seq<string>, have: seq<string>)
    requires |have| > 0
    ensures |PlanLines(table, steps, have, [])| == 3 + |steps|
    ensures PlanLines(table, steps, have, [])[2 + |steps|] == EverythingLine
  {
    assert PlanLines(table, steps, have, []) == [YouHaveLine(have), AdaptedStepsHeader] + StepLines(steps) + [EverythingLine];
  }

  /** The closing lines of a matched plan with something missing. */
  lemma MatchedTailMissing(table: map<string, seq<string>>, steps: seq<string>, have: seq<string>, missing: seq<string>)
    requires |have| > 0 && |missing| > 0
    ensures var lines := PlanLines(table, steps, have, missing);
      && |lines| == 3 + |steps| + |missing|
      && lines[2 + |steps|] == MissingLine(missing)
      && forall j :: 0 <= j < |missing| ==> lines[3 + |steps| + j] == SubstitutionLine(table, missing[j])
  {
    var head := [YouHaveLine(have), AdaptedStepsHeader] + StepLines(steps);
    assert PlanLines(table, steps, have, missing) == head + ([MissingLine(missing)] + SubstitutionLines(table, missing));
    TailLines(head, MissingLine(missing), SubstitutionLines(table, missing));
  }

  /** Where the lines after a fixed head land in the plan. */
  lemma TailLines(head: seq<string>, m: string, rest: seq<string>)
    ensures |head + ([m] + rest)| == |head| + 1 + |rest|
    ensures (head + ([m] + rest))[|head|] == m
    ensures forall j :: 0 <= j < |rest| ==> (head + ([m] + rest))[|head| + 1 + j] == rest[j]
  {
  }

  lemma FirstCharacters(have: seq<string>)
    ensures YouHaveLine(have)[0] == 'Y'
    ensures NoMatchLine[0] == 'N' && ZeroWasteHeader[0] == 'Z' && Bullet[0] == '\U{2022}'
  {
    assert YouHaveLine(have) == "You have: " + (Join(have, ", ") + " \U{2014} great, we'll use these.");
    assert NoMatchLine == "N" + NoMatchLine[1..];
    assert ZeroWasteHeader == "Z" + ZeroWasteHeader[1..];
  }

  /** The first line tells the two branches apart: the plan opens with the
      "no core ingredients" line exactly when nothing the recipe needs is in
      the user's set, and with the "You have" line otherwise. */
  lemma BranchByFirstLine(table: map<string, seq<string>>, recipe: Recipe, userSet: set<string>)
    ensures var p := PlanFor(table, recipe, userSet);
      && p.plan != []
      && (p.have == [] <==> forall x :: x in recipe.ingredients ==> Lower(x) !in userSet)
      && (p.plan[0] == NoMatchLine <==> p.have == [])
      && (p.have != [] ==> p.plan[0] == YouHaveLine(p.have))
  {
    var p := PlanFor(table, recipe, userSet);
    if p.have != [] {
      assert p.have[0] in p.have;
      MatchedHead(table, recipe.baseSteps, p.have, p.missing);
      FirstCharacters(p.have);
    } else {
      MissingAll(recipe.ingredients, userSet);
    }
  }

  /** Nothing matched: the recipe's ingredients are all missing and the plan is the six tips. */
  lemma NoMatchPlan(table: map<string, seq<string>>, recipe: Recipe, userSet: set<string>)
    requires forall x :: x in recipe.ingredients ==> Lower(x) !in userSet
    ensures var p := PlanFor(table, recipe, userSet);
      p.have == [] && p.missing == recipe.ingredients && p.plan == NoMatchTips
  {
    MissingAll(recipe.ingredients, userSet);
  }

  /** A numbered step line starts with a digit. */
  lemma StepLineStartsWithDigit(idx: nat, step: string)
    ensures StepLine(idx, step) != [] && IsDigit(StepLine(idx, step)[0])
  {
    var n := NatToString(idx + 1);
    assert StepLine(idx, step) == n + ". " + step;
    assert StepLine(idx, step)[0] == n[0];
  }

  /** None of the six tips starts with a digit, so none is a numbered step. */
  lemma NoMatchTipsAreNotSteps(idx: nat, step: string)
    ensures StepLine(idx, step) !in NoMatchTips
  {
    StepLineStartsWithDigit(idx, step);
    var line := StepLine(idx, step);
    FirstCharacters([]);
    forall k | 2 <= k < |NoMatchTips| ensures NoMatchTips[k][0] == Bullet[0] {
      var rest := NoMatchTips[k][|Bullet|..];
      assert NoMatchTips[k] == Bullet + rest;
    }
    forall k | 0 <= k < |NoMatchTips| ensures NoMatchTips[k] != line {
      assert NoMatchTips[k][0] != line[0];
    }
  }

  /** Empty input, or input made only of commas and spaces, matches nothing:
      the plan is exactly the six fixed lines and no base step appears in it. */
  lemma BlankInputPlan(table: map<string, seq<string>>, recipe: Recipe, userIngText: string)
    requires forall i :: 0 <= i < |userIngText| ==> userIngText[i] == ',' || IsSpace(userIngText[i])
    ensures var p := ZeroWastePlan(table, recipe, userIngText);
      && p.have == [] && p.missing == recipe.ingredients && p.plan == NoMatchTips
      && forall i :: 0 <= i < |recipe.baseSteps| ==> StepLine(i, recipe.baseSteps[i]) !in p.plan
  {
    BlankInputHasNoTokens(userIngText);
    NoMatchPlan(table, recipe, {});
    forall i | 0 <= i < |recipe.baseSteps| ensures StepLine(i, recipe.baseSteps[i]) !in NoMatchTips {
      NoMatchTipsAreNotSteps(i, recipe.baseSteps[i]);
    }
  }

  /** The empty input is the first case of the above. */
  lemma EmptyInputPlan(table: map<string, seq<string>>, recipe: Recipe)
    ensures ZeroWastePlan(table, recipe, "").plan == NoMatchTips
    ensures |ZeroWastePlan(table, recipe, "").plan| == 6
  {
    BlankInputPlan(table, recipe, "");
  }

  /** When something matched, the plan opens with the "You have" line, the
      header, and the base steps numbered from 1 in their order. */
  lemma MatchedPrefix(table: map<string, seq<string>>, recipe: Recipe, userSet: set<string>)
    requires exists x :: x in recipe.ingredients && Lower(x) in userSet
    ensures var p := PlanFor(table, recipe, userSet);
      && p.have != []
      && |p.plan| > 2 + |recipe.baseSteps|
      && p.plan[0] == YouHaveLine(p.have)
      && p.plan[1] == AdaptedStepsHeader
      && forall i :: 0 <= i < |recipe.baseSteps| ==> p.plan[2 + i] == StepLine(i, recipe.baseSteps[i])
  {
    var x :| x in recipe.ingredients && Lower(x) in userSet;
    var p := PlanFor(table, recipe, userSet);
    assert x in p.have;
    MatchedHead(table, recipe.baseSteps, p.have, p.missing);
  }

  /** Everything matched: the "everything" line follows the steps and closes the plan. */
  lemma FullMatchPlan(table: map<string, seq<string>>, recipe: Recipe, userSet: set<string>)
    requires recipe.ingredients != []
    requires forall x :: x in recipe.ingredients ==> Lower(x) in userSet
    ensures var p := PlanFor(table, recipe, userSet);
      && p.have == recipe.ingredients && p.missing == []
      && |p.plan| == 3 + |recipe.baseSteps|
      && p.plan[2 + |recipe.baseSteps|] == EverythingLine
  {
    HaveAll(recipe.ingredients, userSet);
    MatchedTailEverything(table, recipe.baseSteps, recipe.ingredients);
  }

  lemma HaveNonEmpty(ingredients: seq<string>, userSet: set<string>, x: string)
    requires x in ingredients && Lower(x) in userSet
    ensures |Have(ingredients, userSet)| > 0
  {
    assert x in Have(ingredients, userSet);
  }

  lemma MissingNonEmpty(ingredients: seq<string>, userSet: set<string>, y: string)
    requires y in ingredients && Lower(y) !in userSet
    ensures |Missing(ingredients, userSet)| > 0
  {
    assert y in Missing(ingredients, userSet);
  }

  lemma PartialMatchLines(table: map<string, seq<string>>, recipe: Recipe, userSet: set<string>)
    requires |Have(recipe.ingredients, userSet)| > 0 && |Missing(recipe.ingredients, userSet)| > 0
    ensures var p := PlanFor(table, recipe, userSet);
      && |p.plan| == 3 + |recipe.baseSteps| + |p.missing|
      && p.plan[2 + |recipe.baseSteps|] == MissingLine(p.missing)
      && forall j :: 0 <= j < |p.missing| ==> p.plan[3 + |recipe.baseSteps| + j] == SubstitutionLine(table, p.missing[j])
  {
    MatchedTailMissing(table, recipe.baseSteps, Have(recipe.ingredients, userSet), Missing(recipe.ingredients, userSet));
  }

  /** Partly matched: after the steps comes the "Missing" line and then one
      advice line per missing ingredient, in recipe order. */
  lemma PartialMatchPlan(table: map<string, seq<string>>, recipe: Recipe, userSet: set<string>)
    requires exists x :: x in recipe.ingredients && Lower(x) in userSet
    requires exists y :: y in recipe.ingredients && Lower(y) !in userSet
    ensures var p := PlanFor(table, recipe, userSet);
      && p.have != [] && p.missing != []
      && |p.plan| == 3 + |recipe.baseSteps| + |p.missing|
      && p.plan[2 + |recipe.baseSteps|] == MissingLine(p.missing)
      && forall j :: 0 <= j < |p.missing| ==> p.plan[3 + |recipe.baseSteps| + j] == SubstitutionLine(table, p.missing[j])
  {
    var x :| x in recipe.ingredients && Lower(x) in userSet;
    var y :| y in recipe.ingredients && Lower(y) !in userSet;
    HaveNonEmpty(recipe.ingredients, userSet, x);
    MissingNonEmpty(recipe.ingredients, userSet, y);
    PartialMatchLines(table, recipe, userSet);
  }

  /** Case, empty tokens from stray commas, and spaces around a token do not
      change the plan. */
  lemma NormalisedMatching(table: map<string, seq<string>>, recipe: Recipe, a: string, b: string)
    ensures ZeroWastePlan(table, recipe, Lower(a)) == ZeroWastePlan(table, recipe, a)
    ensures ZeroWastePlan(table, recipe, a + ",," + b) == ZeroWastePlan(table, recipe, a + "," + b)
    ensures ZeroWastePlan(table, recipe, a + ",") == ZeroWastePlan(table, recipe, a)
    ensures ZeroWastePlan(table, recipe, "," + a) == ZeroWastePlan(table, recipe, a)
  {
    UserSetIgnoresCase(a);
    UserSetIgnoresEmptyTokens(a, b);
  }

  /** Three comma-separated parts contribute their sets independently. */
  lemma UserSetThreeParts(a: string, m: string, b: string)
    ensures UserSet(a + "," + m + "," + b) == UserSet(a) + UserSet(m) + UserSet(b)
  {
    var mb := m + "," + b;
    StringAssoc(a + ",", m, "," + b);
    StringAssoc(a + "," + m, ",", b);
    StringAssoc(m, ",", b);
    assert a + "," + m + "," + b == a + "," + mb;
    UserSetCommaSplit(a, mb);
    UserSetCommaSplit(m, b);
  }

  lemma EmptySuffix(x: string)
    ensures x + "" == x
  {
  }

  lemma StringAssoc(x: string, y: string, z: string)
    ensures x + (y + z) == (x + y) + z
  {
  }

  /** Spaces around a token in the middle of the input do not change the plan. */
  lemma PaddedTokenMatching(table: map<string, seq<string>>, recipe: Recipe, a: string, p: string, t: string, q: string, b: string)
    requires AllSpace(p) && AllSpace(q) && ',' !in t
    ensures ZeroWastePlan(table, recipe, a + "," + (p + t + q) + "," + b) == ZeroWastePlan(table, recipe, a + "," + t + "," + b)
  {
    UserSetThreeParts(a, p + t + q, b);
    UserSetThreeParts(a, t, b);
    UserSetIgnoresPadding(p, t, q);
  }

  // ---------------------------------------------------------------------
  // The example from the catalogue
  // ---------------------------------------------------------------------

  lemma NormalTokenIsItsOwnNormalForm(t: string)
    requires IsNormalToken(t)
    ensures Normalize(t) == t
  {
    TrimOfTrimmed(t);
    LowerOfLowerCase(t);
  }

  const PastaInput := "pasta" + ", " + "olive oil"
  const PastaTokens: set<string> := {"pasta", "olive oil"}

  /** A normal token without commas is the one token of its own input. */
  lemma UserSetOfNormalToken(t: string)
    requires IsNormalToken(t) && ',' !in t
    ensures UserSet(t) == {t}
  {
    NormalTokenIsItsOwnNormalForm(t);
    assert !IsSpace(t[0]);
    UserSetOfToken(t);
  }

  /** Two normal tokens separated by a comma and a space name exactly those two. */
  lemma UserSetOfPair(x: string, y: string)
    requires IsNormalToken(x) && ',' !in x
    requires IsNormalToken(y) && ',' !in y
    ensures UserSet(x + ", " + y) == {x, y}
  {
    CommaSpace(x, y);
    UserSetCommaSplit(x, " " + y);
    UserSetOfNormalToken(x);
    UserSetOfSpacedToken(y);
  }

  lemma CommaSpace(x: string, y: string)
    ensures x + ", " + y == x + "," + (" " + y)
  {
    assert ", " == "," + " ";
    StringAssoc(x, ",", " ");
    StringAssoc(x + ",", " ", y);
  }

  /** A normal token after one space names just that token. */
  lemma UserSetOfSpacedToken(y: string)
    requires IsNormalToken(y) && ',' !in y
    ensures UserSet(" " + y) == {y}
  {
    EmptySuffix(" " + y);
    UserSetIgnoresPadding(" ", y, "");
    UserSetOfNormalToken(y);
  }

  lemma PastaTokensAreNormal()
    ensures IsNormalToken("pasta") && ',' !in "pasta"
    ensures IsNormalToken("olive oil") && ',' !in "olive oil"
  {
  }

  lemma PastaUserSet()
    ensures UserSet(PastaInput) == PastaTokens
  {
    PastaTokensAreNormal();
    UserSetOfPair("pasta", "olive oil");
  }

  lemma HaveCons(x: string, rest: seq<string>, userSet: set<string>)
    ensures Have([x] + rest, userSet) == (if Lower(x) in userSet then [x] else []) + Have(rest, userSet)
  {
    assert ([x] + rest)[0] == x && ([x] + rest)[1..] == rest;
  }

  lemma MissingCons(x: string, rest: seq<string>, userSet: set<string>)
    ensures Missing([x] + rest, userSet) == (if Lower(x) in userSet then [] else [x]) + Missing(rest, userSet)
  {
    assert ([x] + rest)[0] == x && ([x] + rest)[1..] == rest;
  }

  lemma PastaNames()
    ensures Lower("Pasta") in PastaTokens && Lower("Olive Oil") in PastaTokens
    ensures Lower("Garlic") !in PastaTokens && Lower("Parmesan") !in PastaTokens
  {
    assert Lower("Pasta") == "pasta" && Lower("Olive Oil") == "olive oil";
    assert Lower("Garlic") == "garlic" && Lower("Parmesan") == "parmesan";
  }

  lemma PastaHave(s0: seq<string>, s1: seq<string>, s2: seq<string>, s3: seq<string>)
    requires s3 == ["Parmesan"] && s2 == ["Garlic"] + s3 && s1 == ["Olive Oil"] + s2 && s0 == ["Pasta"] + s1
    ensures Have(s0, PastaTokens) == ["Pasta", "Olive Oil"]
  {
    PastaNames();
    assert s3 == ["Parmesan"] + [];
    HaveCons("Parmesan", [], PastaTokens);
    assert Have(s3, PastaTokens) == [];
    HaveCons("Garlic", s3, PastaTokens);
    assert Have(s2, PastaTokens) == [];
    HaveCons("Olive Oil", s2, PastaTokens);
    assert Have(s1, PastaTokens) == ["Olive Oil"];
    HaveCons("Pasta", s1, PastaTokens);
  }

  lemma PastaMissing(s0: seq<string>, s1: seq<string>, s2: seq<string>, s3: seq<string>)
    requires s3 == ["Parmesan"] && s2 == ["Garlic"] + s3 && s1 == ["Olive Oil"] + s2 && s0 == ["Pasta"] + s1
    ensures Missing(s0, PastaTokens) == ["Garlic", "Parmesan"]
  {
    PastaNames();
    assert s3 == ["Parmesan"] + [];
    MissingCons("Parmesan", [], PastaTokens);
    assert Missing(s3, PastaTokens) == ["Parmesan"];
    MissingCons("Garlic", s3, PastaTokens);
    assert Missing(s2, PastaTokens) == ["Garlic", "Parmesan"];
    MissingCons("Olive Oil", s2, PastaTokens);
    assert Missing(s1, PastaTokens) == ["Garlic", "Parmesan"];
    MissingCons("Pasta", s1, PastaTokens);
  }

  lemma PastaPartition()
    ensures Have(PastaRecipe.ingredients, PastaTokens) == ["Pasta", "Olive Oil"]
    ensures Missing(PastaRecipe.ingredients, PastaTokens) == ["Garlic", "Parmesan"]
  {
    var s3: seq<string> := ["Parmesan"];
    var s2 := ["Garlic"] + s3;
    var s1 := ["Olive Oil"] + s2;
    var s0 := ["Pasta"] + s1;
    assert PastaRecipe.ingredients == s0;
    PastaHave(s0, s1, s2, s3);
    PastaMissing(s0, s1, s2, s3);
  }

  lemma PastaMissingLine()
    ensures MissingLine(["Garlic", "Parmesan"]) == "Missing: Garlic, Parmesan."
  {
    assert Join(["Garlic", "Parmesan"], ", ") == "Garlic, Parmesan";
  }

  /** The advice line for an ingredient whose lower-cased name is a key with two alternatives. */
  lemma SubstitutionLineOfKey(table: map<string, seq<string>>, m: string, key: string, first: string, second: string)
    requires Lower(m) == key && key in table && table[key] == [first, second]
    ensures SubstitutionLine(table, m) == "Substitute for " + m + ": " + first + " or " + second + "."
  {
    assert Join(table[key], " or ") == first + " or " + second;
  }

  lemma GarlicKey()
    ensures Lower("Garlic") == "garlic"
    ensures "garlic" in SubstitutionMap && SubstitutionMap["garlic"] == ["onion", "garlic powder"]
  {
  }

  lemma ParmesanKey()
    ensures Lower("Parmesan") == "parmesan"
    ensures "parmesan" in SubstitutionMap && SubstitutionMap["parmesan"] == ["yogurt", "crumbled paneer"]
  {
  }

  lemma PastaGarlicLine()
    ensures SubstitutionLine(SubstitutionMap, "Garlic") == "Substitute for " + "Garlic" + ": " + "onion" + " or " + "garlic powder" + "."
  {
    GarlicKey();
    SubstitutionLineOfKey(SubstitutionMap, "Garlic", "garlic", "onion", "garlic powder");
  }

  lemma PastaParmesanLine()
    ensures SubstitutionLine(SubstitutionMap, "Parmesan") == "Substitute for " + "Parmesan" + ": " + "yogurt" + " or " + "crumbled paneer" + "."
  {
    ParmesanKey();
    SubstitutionLineOfKey(SubstitutionMap, "Parmesan", "parmesan", "yogurt", "crumbled paneer");
  }

  /** Pasta with "pasta, olive oil": the two matched, the two others advised
      from the table. */
  lemma PastaExample()
    ensures var p := ZeroWastePlan(SubstitutionMap, PastaRecipe, PastaInput);
      && p.have == ["Pasta", "Olive Oil"]
      && p.missing == ["Garlic", "Parmesan"]
      && |p.plan| == 8
      && p.plan[5] == "Missing: Garlic, Parmesan."
      && p.plan[6] == "Substitute for " + "Garlic" + ": " + "onion" + " or " + "garlic powder" + "."
      && p.plan[7] == "Substitute for " + "Parmesan" + ": " + "yogurt" + " or " + "crumbled paneer" + "."
  {
    PastaUserSet();
    PastaPartition();
    MatchedTailMissing(SubstitutionMap, PastaRecipe.baseSteps, ["Pasta", "Olive Oil"], ["Garlic", "Parmesan"]);
    PastaMissingLine();
    PastaGarlicLine();
    PastaParmesanLine();
  }

  // ---------------------------------------------------------------------
  // The plan view
  // ---------------------------------------------------------------------

  /** `plan.filter(s => s.length > 0)`: the "Final steps" list. */
  function FinalSteps(plan: seq<string>): (r: seq<string>)
    ensures forall s :: s in r <==> s in plan && |s| > 0
    ensures IsSubsequence(r, plan)
    ensures multiset(r) == multiset(plan)[[] := 0]
    decreases |plan|
  {
    if plan == [] then []
    else
      assert plan == [plan[0]] + plan[1..];
      if |plan[0]| > 0 then [plan[0]] + FinalSteps(plan[1..]) else FinalSteps(plan[1..])
  }

  lemma {:induction false} FinalStepsOfNonEmptyLines(plan: seq<string>)
    requires forall k :: 0 <= k < |plan| ==> plan[k] != []
    ensures FinalSteps(plan) == plan
    decreases |plan|
  {
    if plan != [] {
      assert forall k :: 0 <= k < |plan[1..]| ==> plan[1..][k] == plan[k + 1];
      FinalStepsOfNonEmptyLines(plan[1..]);
      assert plan == [plan[0]] + plan[1..];
    }
  }

  /** `recipe.ingredients.map(ing => have.includes(ing))`: the ticks of the list. */
  function Presence(ingredients: seq<string>, have: seq<string>): (r: seq<bool>)
    ensures |r| == |ingredients|
  {
    seq(|ingredients|, i requires 0 <= i < |ingredients| => ingredients[i] in have)
  }

  /** No plan line is empty. */
  lemma PlanLinesNonEmpty(table: map<string, seq<string>>, steps: seq<string>, have: seq<string>, missing: seq<string>)
    ensures forall k :: 0 <= k < |PlanLines(table, steps, have, missing)| ==> PlanLines(table, steps, have, missing)[k] != []
  {
    var lines := PlanLines(table, steps, have, missing);
    if |have| > 0 {
      var stepLines := StepLines(steps);
      var advice := AdviceLines(table, missing);
      assert lines == [YouHaveLine(have), AdaptedStepsHeader] + stepLines + advice;
      forall k | 0 <= k < |lines| ensures lines[k] != [] {
        if k < 2 {
        } else if k < 2 + |stepLines| {
          StepLineStartsWithDigit(k - 2, steps[k - 2]);
          assert lines[k] == stepLines[k - 2];
        } else {
          var j := k - 2 - |stepLines|;
          assert lines[k] == advice[j];
          if |missing| > 0 && j > 0 {
            var m := missing[j - 1];
            assert advice[j] == SubstitutionLine(table, m);
          }
        }
      }
    }
  }

  /** An ingredient is ticked exactly when the user's set holds its lower-cased name. */
  lemma PresenceMatchesUserSet(ingredients: seq<string>, userSet: set<string>)
    ensures forall i :: 0 <= i < |ingredients| ==>
      (Presence(ingredients, Have(ingredients, userSet))[i] <==> Lower(ingredients[i]) in userSet)
  {
    var have := Have(ingredients, userSet);
    forall i | 0 <= i < |ingredients|
      ensures Presence(ingredients, have)[i] <==> Lower(ingredients[i]) in userSet
    {
      assert ingredients[i] in ingredients;
    }
  }

  /** What the view shows agrees with the plan: the "Final steps" list is the
      plan itself, and an ingredient is ticked exactly when the user's set holds
      its lower-cased name. */
  lemma ViewConsistency(table: map<string, seq<string>>, recipe: Recipe, userSet: set<string>)
    ensures var p := PlanFor(table, recipe, userSet);
      && FinalSteps(p.plan) == p.plan
      && forall i :: 0 <= i < |recipe.ingredients| ==>
           (Presence(recipe.ingredients, p.have)[i] <==> Lower(recipe.ingredients[i]) in userSet)
  {
    var have := Have(recipe.ingredients, userSet);
    var missing := Missing(recipe.ingredients, userSet);
    PlanLinesNonEmpty(table, recipe.baseSteps, have, missing);
    FinalStepsOfNonEmptyLines(PlanLines(table, recipe.baseSteps, have, missing));
    PresenceMatchesUserSet(recipe.ingredients, userSet);
  }

  // ---------------------------------------------------------------------
  // Favourites
  // ---------------------------------------------------------------------

  /** `toggleFavorite`: the recipe id joins the favourites when absent and
      leaves them when present; no other id changes its membership. */
  function ToggleFavorite(favorites: seq<int>, id: int): (r: seq<int>)
    ensures id in r <==> id !in favorites
    ensures forall y :: y != id ==> (y in r <==> y in favorites)
  {
    Toggle(favorites, id)
  }

  /** A duplicate-free favourites list stays duplicate-free. */
  lemma ToggleFavoriteKeepsNoDup(favorites: seq<int>, id: int)
    requires NoDup(favorites)
    ensures NoDup(ToggleFavorite(favorites, id))
  {
    ToggleKeepsNoDup(favorites, id);
  }
}
