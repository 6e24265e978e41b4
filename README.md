# Zero-waste recipe planner and recipe scaler — a Dafny model

This project models the decision logic of a recipe-discovery website, TSCE-Menu.
It has three parts:

- **The zero-waste adaptation planner** of the recipes page (`RecipesPage`).
  - The user types the ingredients they have as comma-separated text.
  - The text is split on commas, each piece is trimmed and lower-cased, and empty pieces are dropped.
  - The recipe's ingredients are split into those the user has and those missing.
  - The plan is built along one of two branches. If something matched, the plan has a "You have" line, the numbered base steps, and then either one substitution (or fallback) line per missing ingredient or an "everything" line. If nothing matched, the plan is six fixed zero-waste tips.
  - Also modelled: the favourite toggle, and what the plan view derives from a plan (the "Final steps" filter and the present/absent ticks).
- **The recipe-scaling demo** of the demo page (`DemoPage`).
  - Four base quantities are written for four servings and scaled to the slider's value.
  - Eggs are rounded half up to a whole number. The other rows are shown to one decimal.
  - The page state (`isPlaying`, `currentDemo`, `servings`) is a class whose methods are the page's handlers.
- **The filter toggle** of the requirements section (`RequirementsSection`). It starts from `["vegetarian"]` and removes an id if present, else appends it.

Two helper modules are shared:

- `Text` holds the JavaScript string primitives the planner relies on: `trim`, `toLowerCase`, `split` on one character, `join`, and the decimal rendering of a number in a template literal.
- `Lists` holds the list idioms: `filter(x => x !== id)` and the membership toggle that `toggleFavorite` and `toggleFilter` share.

Quantities are exact rationals (`real`). Every value the page scales is a multiple of 1/8, which an IEEE double holds exactly. So `Math.round` and `toFixed(1)` act on the exact value, and both are modelled as rounding half up.

In three places the model follows the code as written, where a reader might expect otherwise:

- Substitution lookup lower-cases the missing ingredient but does not trim it (`RecipesPage.tsx:166`).
- Recipe ingredients are lower-cased but not trimmed before matching. So a recipe ingredient with a space at either end can never be matched (`PaddedIngredientNeverMatches`).
- Scaling always divides by 4 and picks eggs by name (`name === "Eggs"`), not by a discreteness flag or a general base-servings argument.

## Model

| member | source | states |
|---|---|---|
| `Text.TrimIsMiddleSlice` | src/pages/RecipesPage.tsx:150 | `trim` returns a slice of the input with only spaces cut off either side, and the result neither starts nor ends with a space |
| `Text.TrimIgnoresPadding` | src/pages/RecipesPage.tsx:150 | spaces added around a token never survive `trim` |
| `Text.TrimLower` | src/pages/RecipesPage.tsx:150 | trimming and lower-casing commute |
| `Text.LowerChar` | src/pages/RecipesPage.tsx:150 | the lower-cased character is never upper-case; spaces and commas are kept; non-letters are unchanged |
| `Text.JoinSplit` | src/pages/RecipesPage.tsx:149 | joining the `split` pieces with the separator gives back the input |
| `Text.SplitJoin` | src/pages/RecipesPage.tsx:149 | splitting a join of separator-free pieces gives back the pieces |
| `Text.SplitLower` | src/pages/RecipesPage.tsx:149-150 | lower-casing the text lower-cases each comma-separated piece and keeps the piece count |
| `Text.NatToStringRoundTrip` | src/pages/RecipesPage.tsx:162 | the decimal rendering of a step number reads back as the same number |
| `Lists.RemoveAll` | src/pages/RecipesPage.tsx:126 | `filter(x => x !== id)` drops every occurrence of `id`, keeps every other element, keeps the rest in order, and keeps the other multiplicities |
| `Lists.Toggle` | src/pages/RecipesPage.tsx:126 | after the toggle, `id` is present exactly when it was absent before; every other element keeps its membership |
| `Lists.ToggleKeepsNoDup` | src/components/RequirementsSection.tsx:23-27 | a duplicate-free list stays duplicate-free under the toggle |
| `Lists.ToggleTwiceAbsent` | src/components/RequirementsSection.tsx:23-27 | toggling an absent element twice gives back the list exactly |
| `RecipesPage.NormalizeSpec` | src/pages/RecipesPage.tsx:150-151 | a piece is dropped exactly when it is blank; a kept piece is non-empty, trimmed and lower-case |
| `RecipesPage.UserSetIsNormal` | src/pages/RecipesPage.tsx:147-152 | every member of the user's set is non-empty, trimmed and lower-case |
| `RecipesPage.UserSetCommaSplit` | src/pages/RecipesPage.tsx:147-152 | the set of `a,b` is the union of the sets of `a` and `b` |
| `RecipesPage.UserSetIgnoresPadding` | src/pages/RecipesPage.tsx:150 | spaces around a token do not change the user's set |
| `RecipesPage.UserSetIgnoresEmptyTokens` | src/pages/RecipesPage.tsx:151 | doubled, leading and trailing commas add nothing to the user's set |
| `RecipesPage.UserSetIgnoresCase` | src/pages/RecipesPage.tsx:150 | lower-casing the input does not change the user's set |
| `RecipesPage.BlankInputHasNoTokens` | src/pages/RecipesPage.tsx:147-152 | input made only of commas and spaces gives the empty set |
| `RecipesPage.Have` | src/pages/RecipesPage.tsx:154 | `have` holds exactly the recipe ingredients whose lower-cased name is in the user's set, as a subsequence in recipe order |
| `RecipesPage.Missing` | src/pages/RecipesPage.tsx:155 | `missing` holds exactly the recipe ingredients whose lower-cased name is not in the user's set, as a subsequence in recipe order |
| `RecipesPage.Partition` | src/pages/RecipesPage.tsx:154-155 | the lengths of `have` and `missing` add up to the recipe's, and their multisets make up the recipe's |
| `RecipesPage.PartitionDisjoint` | src/pages/RecipesPage.tsx:154-155 | no name is in both `have` and `missing` |
| `RecipesPage.CatalogueIngredientsMatchable` | src/pages/RecipesPage.tsx:50-123 | the catalogue opens with the pasta recipe, and every catalogue ingredient lower-cases to a token the user can type, so none is unmatchable |
| `RecipesPage.PaddedIngredientNeverMatches` | src/pages/RecipesPage.tsx:154-155 | the recipe side is only lower-cased, never trimmed: an ingredient with a space at either end is always missing |
| `RecipesPage.StepLines` | src/pages/RecipesPage.tsx:162 | one line per base step, in order, line `i` being `(i+1) + ". " + step` |
| `RecipesPage.SubstitutionLines` | src/pages/RecipesPage.tsx:165-170 | one advice line per missing ingredient, in order |
| `RecipesPage.PushStepLines` | src/pages/RecipesPage.tsx:162 | the `forEach`/`push` loop appends exactly the numbered step lines |
| `RecipesPage.PushSubstitutionLines` | src/pages/RecipesPage.tsx:165-170 | the `forEach`/`push` loop appends exactly the advice lines |
| `RecipesPage.FillPlan` | src/pages/RecipesPage.tsx:157-183 | the pushes of both branches build exactly the plan lines the specification function gives |
| `RecipesPage.BuildZeroWastePlan` | src/pages/RecipesPage.tsx:146-185 | `buildZeroWastePlan` returns the user-set partition and the plan of the specification function |
| `RecipesPage.BranchByFirstLine` | src/pages/RecipesPage.tsx:159-182 | the plan is never empty; `have` is empty exactly when no ingredient matched, and then the plan opens with "No core ingredients…"; otherwise it opens with the "You have" line |
| `RecipesPage.NoMatchPlan` | src/pages/RecipesPage.tsx:174-182 | nothing matched: `have` is empty, `missing` is the whole recipe, and the plan is the six tips |
| `RecipesPage.NoMatchTipsAreNotSteps` | src/pages/RecipesPage.tsx:176-181 | no numbered step line is one of the six tips |
| `RecipesPage.BlankInputPlan` | src/pages/RecipesPage.tsx:147-152 | blank or all-comma input gives exactly the six tips, and no base step appears in the plan |
| `RecipesPage.EmptyInputPlan` | src/pages/RecipesPage.tsx:174-182 | the empty input gives the six-line tips plan |
| `RecipesPage.MatchedPrefix` | src/pages/RecipesPage.tsx:159-162 | when something matched, the plan opens with the "You have" line and the header, and line `2+i` is step `i` numbered from 1 |
| `RecipesPage.FullMatchPlan` | src/pages/RecipesPage.tsx:171-173 | everything matched: `missing` is empty, the plan has `3 + |steps|` lines, and the last is the "everything" line |
| `RecipesPage.PartialMatchPlan` | src/pages/RecipesPage.tsx:163-170 | partly matched: after the steps come the "Missing" line and one advice line per missing ingredient in recipe order, `3 + |steps| + |missing|` lines in all |
| `RecipesPage.SubstitutionLineOfKey` | src/pages/RecipesPage.tsx:166-168 | a missing ingredient whose lower-cased name is a key gets its alternatives joined with " or " |
| `RecipesPage.NormalisedMatching` | src/pages/RecipesPage.tsx:147-155 | case and stray commas in the input do not change the plan |
| `RecipesPage.PaddedTokenMatching` | src/pages/RecipesPage.tsx:147-155 | spaces around a token in the input do not change the plan |
| `RecipesPage.PastaUserSet` | src/pages/RecipesPage.tsx:147-152 | "pasta, olive oil" gives the set {"pasta", "olive oil"} |
| `RecipesPage.PastaPartition` | src/pages/RecipesPage.tsx:60 | for the pasta recipe, `have` is Pasta, Olive Oil and `missing` is Garlic, Parmesan |
| `RecipesPage.PastaExample` | src/pages/RecipesPage.tsx:134-143 | the pasta plan has 8 lines and ends with the "Missing" line and the garlic (onion or garlic powder) and parmesan (yogurt or crumbled paneer) substitutions |
| `RecipesPage.FinalSteps` | src/pages/RecipesPage.tsx:352-353 | the filter keeps exactly the non-empty lines, in plan order and with their multiplicities, and drops every empty one |
| `RecipesPage.PlanLinesNonEmpty` | src/pages/RecipesPage.tsx:157-183 | no plan line is empty |
| `RecipesPage.ViewConsistency` | src/pages/RecipesPage.tsx:317-326 | the "Final steps" list is the plan itself, and an ingredient is ticked exactly when its lower-cased name is in the user's set |
| `RecipesPage.ToggleFavorite` | src/pages/RecipesPage.tsx:125-127 | the id's membership flips; every other id keeps its membership |
| `RecipesPage.ToggleFavoriteKeepsNoDup` | src/pages/RecipesPage.tsx:126 | a duplicate-free favourites list stays duplicate-free |
| `DemoPage.RoundHalfUp` | src/pages/DemoPage.tsx:246 | `Math.round` gives the integer within half of the value, rounding halves up |
| `DemoPage.RoundHalfUpMonotone` | src/pages/DemoPage.tsx:246 | rounding half up is monotone |
| `DemoPage.TenthsTextReadsBack` | src/pages/DemoPage.tsx:248 | the one-decimal text ends in a point and one digit, and reads back as the same number of tenths |
| `DemoPage.Scale` | src/pages/DemoPage.tsx:244-249 | eggs give a whole number within half of `base * servings / 4`; every other row gives tenths within 0.05 of it |
| `DemoPage.ScaledRows` | src/pages/DemoPage.tsx:238-243 | one row per base ingredient, in base-list order, with its name and unit |
| `DemoPage.EggFormula` | src/pages/DemoPage.tsx:245-246 | the egg row is `(3 * servings + 2) div 4` |
| `DemoPage.EggExamples` | src/pages/DemoPage.tsx:241-246 | 2 servings take 2 eggs; 5 servings take 4 |
| `DemoPage.FlourFormula` | src/pages/DemoPage.tsx:239 | flour is `5 * servings` tenths |
| `DemoPage.SugarFormula` | src/pages/DemoPage.tsx:240 | sugar is `(10 * servings + 2) div 4` tenths |
| `DemoPage.MilkFormula` | src/pages/DemoPage.tsx:242 | milk is `(15 * servings + 2) div 4` tenths |
| `DemoPage.FlourAtEight` | src/pages/DemoPage.tsx:247-248 | flour for 8 servings reads "4.0" |
| `DemoPage.BaseAmounts` | src/pages/DemoPage.tsx:239-248 | at 4 servings the rows hold 3 eggs and 20, 10 and 15 tenths of a cup of flour, sugar and milk |
| `DemoPage.IdentityAtBase` | src/pages/DemoPage.tsx:16 | at 4 servings every row shows its base quantity: "3", "2.0", "1.0", "1.5" |
| `DemoPage.ScaleMonotone` | src/pages/DemoPage.tsx:246-248 | more servings never mean less of anything, exact or rounded |
| `DemoPage.DemoState.constructor` | src/pages/DemoPage.tsx:14-16 | initially paused, on "ai-suggestions", at 4 servings |
| `DemoPage.DemoState.TogglePlayback` | src/pages/DemoPage.tsx:45 | flips `isPlaying` and changes nothing else |
| `DemoPage.DemoState.ResetDemo` | src/pages/DemoPage.tsx:46-49 | pauses and sets 4 servings; the selected demo stays |
| `DemoPage.DemoState.StartDemo` | src/pages/DemoPage.tsx:50-53 | selects the demo and plays it; the servings stay |
| `DemoPage.DemoState.SetServings` | src/pages/DemoPage.tsx:221-226 | the slider sets the servings, which stay within 1..12 |
| `DemoPage.DemoState.VisibleRows` | src/pages/DemoPage.tsx:205-232 | rows are shown exactly while the scaling demo plays, and they are the scaled rows |
| `DemoPage.TogglePlaybackTwice` | src/pages/DemoPage.tsx:45 | toggling playback twice restores the state |
| `DemoPage.StartScaling` | src/pages/DemoPage.tsx:50-53 | starting the scaling demo shows one scaled row per base ingredient at the current servings |
| `RequirementsSection.ToggleFilter` | src/components/RequirementsSection.tsx:22-28 | a present id is removed, with the rest kept in order; an absent id is appended; the id's membership flips and every other id keeps its own |
| `RequirementsSection.ToggleFilterTwice` | src/components/RequirementsSection.tsx:23-27 | toggling an absent id twice restores the list; toggling a present one twice moves it to the end; either way the active set is the same |
| `RequirementsSection.ActiveIffOddClicks` | src/components/RequirementsSection.tsx:7 | from the initial `["vegetarian"]`, a filter is active exactly when its clicks, counting the initial one, are odd in number |
| `RequirementsSection.ClicksKeepListWellFormed` | src/components/RequirementsSection.tsx:9-14 | clicking only the four buttons, the list never repeats an id and holds only button ids |

## Left out

- Rendering: JSX markup, framer-motion animation, CSS classes, icons and the layout of the recipe cards are not behaviour.
- The image-load fallback (`placeholder`, `onImgError`, `imageError`) is DOM error handling.
- Unused state: `searchQuery` and `filterOptions` in the recipes page. The search input in the requirements section has no handler.
- `viewRecipe` selects a recipe and clears the input. It only feeds the planner its arguments.
- Display-only recipe fields (cuisine, time, image, rating, difficulty, servings) are not part of the `Recipe` datatype.
- RecipesPage.SubstitutionLine: the table lookup is modelled as a lookup of the table's own keys. On the page the table is a plain object, so a key such as `constructor` or `__proto__` also finds an inherited `Object.prototype` member. A missing ingredient with such a name would make `subs.join` throw, where the model gives the fallback line. No catalogue ingredient has such a name.
- Text.LowerChar: covers only the Basic Latin and Latin-1 Supplement letters. The rest of Unicode's case mapping is not modelled. The catalogue and the table use only ASCII names, but user input with letters outside Latin-1 can match differently. For example, JavaScript lower-cases U+212A KELVIN SIGN to `k`, so "chic\u212Apeas" matches "Chickpeas" in the page but not in the model.
- DemoPage.Scale: uses exact rational arithmetic instead of IEEE-754 doubles. `toFixed(1)` is modelled as "one decimal, halves round up". Every value the page scales is a multiple of 1/8, so the two agree on them. The binary rounding of other values is not modelled.
- DemoPage.DemoState.SetServings: requires a value in 1..12, because the range input only ever yields whole numbers in that range. The conversion `Number(e.target.value)` of the slider's text is not modelled.
- The other two demos ("ai-suggestions", "nutrition-analysis") show fixed placeholder content with no computation.
