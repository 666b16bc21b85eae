# Baby meal planner: a verified model of its core

The planner is a small web app for parents of babies and toddlers. From a child's birth date it
works out the age in months and the feeding stage. For a milk-stage baby it computes the daily
formula amount and a feeding timetable. For a child on solid food it draws weekly and monthly
menus at random from a fixed menu pool per stage. Siblings whose stages are close share one plan,
and each child's empty dinner and snack slots are filled from that child's own pool. For a week's
menus it builds a shopping list: the ingredients named in the menus, grouped by category, with
quantities. It also marks the allergens and the seasonal ingredients a menu name mentions.

This project models that core in Dafny and proves what the code promises:

- `calendar.dfy` (`Calendar`): month lengths and monthly anniversaries.
- `stages.dfy` (`Stages`): age in months, stage by age, and stage order.
- `formula.dfy` (`Formula`): the formula dose.
- `schedule.dfy` (`Schedule`): the feeding timetable of `FormulaResult.tsx`.
- `pools.dfy` (`Pools`): the menu pools.
- `selection.dfy` (`Selection`): the Fisher–Yates shuffle and `pickN`.
- `plans.dfy` (`Plans`): weekly and monthly plans, and filling a shared plan for one child.
- `grouping.dfy` (`Grouping`): grouping siblings by stage.
- `sequences.dfy` (`Sequences`): the stable sort that `Array.prototype.sort` performs.
- `text.dfy` (`Text`): the JavaScript string operations the code relies on.
- `ingredients.dfy` (`Ingredients`): the ingredient tables, quantities, menu-name normalisation and keyword extraction.
- `shopping.dfy` (`ShoppingList`): the weekly shopping list.
- `allergens.dfy` (`Allergens`): allergen detection.
- `seasonal.dfy` (`Seasonal`): seasonal ingredients.
- `weight.dfy` (`Weight`): which texts the weight field accepts and what they mean.

Things the app takes from its environment are parameters of the model: today's date, the
current month and year, the draws of `Math.random`, and the recipe lookup. Code that steps
through a loop is modelled as a method with loop invariants, proved equal to a function that
specifies it:

- the Fisher–Yates shuffle;
- the greedy grouping of siblings;
- the keyword loop of ingredient extraction;
- the nested loops of the shopping list;
- the allergen loop.

The shopping-list loops are split into one method per loop level, each proved against its own
fold. Where the code has `text.split(kw).join(mask)`, the model does the same with `SplitOn` and
`Join`; `Text.SplitJoinIsReplace` proves this equals a global literal replace, and the lemmas
about replacement then apply. JavaScript `Set` and `Map` keep insertion order; the model keeps
it as sequence order.

At two months of age the code schedules five feedings a day (`src/lib/mealPlan.ts:94-106`); six
are scheduled only from one month up to two months, and eight under one month. The field `label` of
a child is named `labelText` here, because `label` is a Dafny keyword.

## Model

| member | source | states |
|---|---|---|
| Calendar.DaysInMonth | src/lib/mealPlan.ts:540 | a month has 28 to 31 days; 29 exactly in February of a leap year, 28 exactly in February otherwise, 30 exactly in April, June, September and November |
| Stages.CalcMonths | src/lib/mealPlan.ts:2-12 | the age is never negative; when positive, that many monthly anniversaries of the birth date have been reached by today, and the next one has not |
| Stages.GetStage | src/lib/mealPlan.ts:22-71 | a stage has a menu exactly when the age is over three months; its name is one of the seven stage names |
| Stages.StageOrder | src/lib/mealPlan.ts:561-573 | the order is -1 exactly for an unknown name, otherwise the name's position among the seven stages |
| Stages.StageOrderOfNames | src/lib/mealPlan.ts:561-569 | each stage name's order is its position in stage order |
| Stages.GetStageOrder | src/lib/mealPlan.ts:22-71 | the stage of an age is the one whose position counts the thresholds 4, 6, 8, 10, 12 and 36 months passed |
| Stages.StageOrderMonotone | src/lib/mealPlan.ts:22-71 | an older child is never at an earlier stage |
| Stages.StageChangesAt | src/lib/mealPlan.ts:22-71 | the stage changes from one month to the next exactly at 4, 6, 8, 10, 12 and 36 months |
| Formula.CalcFormulaAmount | src/lib/mealPlan.ts:82-113 | daily total is 150 ml per kg capped at 1000 ml; 8 feedings under 1 month, 6 under 2 months and 5 from 2 months on, with their interval texts; the maximum per feeding is the largest multiple of 10 whose feedings fit in the daily total; the minimum is 20 below it but at least 10, so the range is ordered exactly when the maximum reaches 10 |
| Formula.FloorToTens | src/lib/mealPlan.ts:109 | flooring by the feedings then by ten gives the largest multiple of ten whose feedings fit the total |
| Schedule.ScheduledHour | src/components/FormulaResult.tsx:19-25 | each feeding hour is a clock hour 0 to 23 |
| Schedule.FormatHour | src/components/FormulaResult.tsx:26-28 | the time text is "HH:00" and reads back as the hour |
| Schedule.BuildSchedule | src/components/FormulaResult.tsx:13-32 | one row per feeding (none for a non-positive count), row i at hour start + i·⌊24/f⌋ mod 24, every row with the amount range "min~max" |
| Schedule.ScheduleTimesDistinct | src/components/FormulaResult.tsx:19-25 | with 1 to 24 feedings no two rows share a time |
| Schedule.HoursDistinct | src/components/FormulaResult.tsx:19-25 | two different feedings of one day fall at different hours |
| Schedule.FiveFeedings | src/components/FormulaResult.tsx:19-25 | five feedings fall at 6, 10, 14, 18 and 22 o'clock |
| Text.PadStart | src/components/FormulaResult.tsx:26 | padding fills with the pad character up to the width and ends with the original text |
| Text.NatToStringRoundTrip | src/components/FormulaResult.tsx:26 | the decimal text of a number reads back as that number |
| Pools.PoolKeys | src/lib/mealPlan.ts:123-460 | exactly the six stages after the milk stage have a pool |
| Pools.PoolForEveryMenuStage | src/lib/mealPlan.ts:123-460 | the stage of an age has a pool exactly when it has a menu |
| Pools.SlotsEmptyOnlyEarly | src/lib/mealPlan.ts:123-460 | breakfast and lunch always have dishes; dinner and snack are empty exactly in the early and middle stages |
| Pools.SlotSizes | src/lib/mealPlan.ts:123-460 | every slot lists 0 or 14 dishes, breakfast and lunch 14 |
| Pools.PoolsWellFormed | src/lib/mealPlan.ts:123-460 | no slot lists a dish twice or an empty dish name |
| Selection.Swap | src/lib/mealPlan.ts:467 | the swap exchanges the two entries and keeps all others |
| Selection.ShuffleFrom | src/lib/mealPlan.ts:465-468 | the loop from index i down to 1; it keeps the length, and ShuffleFromPermutes and ShuffleFromDistinct state that it permutes |
| Selection.Shuffled | src/lib/mealPlan.ts:463-470 | the shuffled copy keeps the length; ShuffledPermutes states that it is a permutation of the input |
| Selection.SwapAt | src/lib/mealPlan.ts:467 | the array afterwards is the swap of its old contents |
| Selection.Shuffle | src/lib/mealPlan.ts:463-470 | the shuffle works on a fresh copy and yields the Fisher–Yates result for the draws |
| Selection.ShuffleFromPermutes | src/lib/mealPlan.ts:465-468 | every pass of the loop keeps the multiset of entries |
| Selection.ShuffledPermutes | src/lib/mealPlan.ts:463-470 | the shuffled copy is a permutation of the pool |
| Selection.ShuffleFromDistinct | src/lib/mealPlan.ts:465-468 | shuffling a duplicate-free pool gives a duplicate-free sequence |
| Selection.PickN | src/lib/mealPlan.ts:473-477 | n picks; all "" from an empty pool, otherwise every pick is a dish of the pool |
| Selection.PickNCycles | src/lib/mealPlan.ts:476 | pick i is entry i mod |pool| of the one shuffled copy |
| Selection.PickNDistinct | src/lib/mealPlan.ts:472-477 | from a duplicate-free pool the first |pool| picks are pairwise different |
| Selection.PickNCovers | src/lib/mealPlan.ts:473-477 | picking at least |pool| dishes picks every dish of the pool |
| Plans.GenerateWeeklyPlanFromPool | src/lib/mealPlan.ts:624-640 | no plan for a stage without a pool; otherwise seven days Monday to Sunday, each dish from its slot's list or "" when the list is empty |
| Plans.GenerateWeeklyPlan | src/lib/mealPlan.ts:493-512 | the plan is empty exactly up to three months, otherwise it is the plan of the age's stage pool |
| Plans.WeeklyEarlyStagesNoDinner | src/lib/mealPlan.ts:493-512 | from four to seven months no dinner and no snack are planned |
| Plans.WeeklyNoRepeats | src/lib/mealPlan.ts:624-640 | within a week no breakfast or lunch repeats, and a dinner or snack repeats only as "" |
| Plans.GenerateMonthlyPlanFromPool | src/lib/mealPlan.ts:643-666 | null exactly for a stage without a pool; otherwise the given year and month with one day per calendar day numbered from 1, each dish from its slot's list |
| Plans.GenerateMonthlyPlan | src/lib/mealPlan.ts:530-556 | null exactly up to three months, otherwise the month plan of the age's stage pool |
| Plans.MonthlyServesWholePool | src/lib/mealPlan.ts:643-666 | every dish of every slot is served at least once in a month |
| Plans.FillSlot | src/lib/mealPlan.ts:680-685 | a dish present is kept; an empty one gets a dish of the list when the list has one and stays empty otherwise |
| Plans.MergeWeeklyPlanForChild | src/lib/mealPlan.ts:670-688 | the shared plan unchanged for a stage without a pool; otherwise same days, breakfasts and lunches, with empty dinners and snacks filled from the child's lists |
| Plans.MergeWeeklyIdempotent | src/lib/mealPlan.ts:670-688 | filling a filled plan again changes nothing, whatever the draws |
| Plans.FilledNotEmpty | src/lib/mealPlan.ts:680-685 | after filling from non-empty dish names a slot stays empty only if it and the list were empty |
| Plans.MergeMonthlyPlanForChild | src/lib/mealPlan.ts:691-710 | year, month, dates, breakfasts and lunches are kept; empty dinners and snacks are filled from the child's lists |
| Plans.MergeFillsEarlyMonth | src/lib/mealPlan.ts:691-710 | an early-stage month filled for a sibling from the late stage on has a dinner and snack from the sibling's lists every day |
| Grouping.ChildOrder | src/lib/mealPlan.ts:571-573 | a child's stage order lies in -1 to 6 |
| Grouping.GroupChildrenByStage | src/lib/mealPlan.ts:590-621 | no groups exactly for no children; the groups hold the children in stable stage order; each group is non-empty, named after its first child's stage, with every member within two stages of it; successive base stages are more than two apart |
| Grouping.GroupSorted | src/lib/mealPlan.ts:598-620 | the greedy loop over sorted children yields well-shaped, separated groups that cover the children in order |
| Grouping.GroupingUnique | src/lib/mealPlan.ts:590-621 | only one grouping of a sorted list has these properties, so they determine the result |
| Grouping.SortByStageFacts | src/lib/mealPlan.ts:594-596 | sorting keeps the length and orders by stage |
| Sequences.SortByKeySorted | src/lib/mealPlan.ts:594-596 | the stable sort's output is ordered by key |
| Sequences.SortByKeyPermutes | src/lib/mealPlan.ts:594-596 | the stable sort's output is a permutation of its input |
| Sequences.SortByKeyStable | src/lib/mealPlan.ts:594-596 | elements with equal keys keep their relative order |
| Sequences.SortByKeyUnique | src/lib/mealPlan.ts:594-596 | any ordering that is sorted and keeps each key's order equals the sort |
| Ingredients.Lookup | src/lib/ingredients.ts:130-131 | a table lookup finds nothing exactly when no entry has the key, else an entry's value |
| Ingredients.AmountKeysMatch | src/lib/ingredients.ts:72-127 | the amount table lists the same ingredients, in the same order, as the info table |
| Ingredients.AmountForEveryIngredient | src/lib/ingredients.ts:72-127 | every known ingredient has an amount |
| Ingredients.RoundUp | src/lib/ingredients.ts:138 | the result is the least multiple of the step at or above the total |
| Ingredients.Quantify | src/lib/ingredients.ts:134-152 | grams are rounded up to tens, shown as kilograms exactly from 1000 g; millilitres rounded up to fifties; pieces and sheets are amount × count |
| Ingredients.CalcQuantity | src/lib/ingredients.ts:130-153 | no quantity exactly for an ingredient without an amount, otherwise the quantity of amount × count |
| Ingredients.CategoriesListed | src/lib/ingredients.ts:155-173 | every ingredient's category is one of the seven listed categories, each with its own emoji |
| Ingredients.AliasesRemoved | src/lib/ingredients.ts:178-181 | after the first four rewrites no 무른, 닭볶음탕, 제육 or 달걀 remains |
| Ingredients.NormalizeRewritesAliases | src/lib/ingredients.ts:176-185 | the normalised name holds none of the four aliases, and every 비타민 in it is followed by 채 |
| Ingredients.NormalizeMealName | src/lib/ingredients.ts:176-185 | the seven global rewrites in order; its meaning is stated by NormalizeRewritesAliases (no alias left, every 비타민 followed by 채) and NormalizedUnchanged (a name no rewrite matches is kept) |
| Ingredients.NamesUnrewritten | src/lib/ingredients.ts:17-68 | every ingredient name, 비타민채소 included, is left alone by the rewrites and is no rice dish |
| Ingredients.NormalizedUnchanged | src/lib/ingredients.ts:176-185 | a name in which none of the seven rewrites finds anything to replace is not changed |
| Text.ReplaceRemoves | src/lib/ingredients.ts:178-181 | a global replace by text that cannot recreate the pattern leaves no occurrence |
| Text.ReplaceAll | src/lib/ingredients.ts:176-185 | `replace` with a global expression, scanning left to right; its meaning is stated by ReplaceRemoves, NoNewOccurrence, ReplaceMakesFollowed, ReplaceAbsent, ReplaceFollowed and SplitJoinIsReplace |
| Text.ReplaceAbsent | src/lib/ingredients.ts:176-185 | a global replace of a pattern none of whose alternatives occurs changes nothing |
| Text.ReplaceFollowed | src/lib/ingredients.ts:182 | `/비타민(?!채)/g` changes nothing where every 비타민 is already followed by 채 |
| Text.ReplaceMakesFollowed | src/lib/ingredients.ts:182 | replacing 비타민 not followed by 채 with 비타민채소 leaves every 비타민 followed by 채 |
| Text.SplitJoinIsReplace | src/lib/ingredients.ts:199 | splitting on a keyword and joining with the mask is the global literal replace |
| Ingredients.SortedKeywordsFacts | src/lib/ingredients.ts:192-194 | the sorted keywords are the ingredient names, reordered by non-increasing length |
| Ingredients.AddNew | src/lib/ingredients.ts:198 | adding to an insertion-ordered set adds the element once and keeps the earlier elements first |
| Ingredients.ScanSound | src/lib/ingredients.ts:196-201 | every keyword recorded by the loop occurred in the text it was tried on |
| Ingredients.ScanMasksAll | src/lib/ingredients.ts:196-201 | after the loop no tried keyword occurs in the masked text |
| Ingredients.ScanCreatesNone | src/lib/ingredients.ts:199 | masking never creates an occurrence of a keyword |
| Ingredients.ExtractIngredients | src/lib/ingredients.ts:188-217 | the loop computes the extraction function; the result is duplicate-free and made of ingredient names |
| Ingredients.ScanKeywords | src/lib/ingredients.ts:196-201 | the keyword loop ends with the found set of the scan over the keywords, starting from nothing found |
| Ingredients.Scan | src/lib/ingredients.ts:196-201 | the keyword loop as a fold; its meaning is stated by ScanSound, ScanMasksAll, ScanCreatesNone and ScanFindsIngredients |
| Ingredients.IngredientsOf | src/lib/ingredients.ts:188-217 | what extractIngredients returns; its meaning is stated by ExtractedAreIngredients, RiceRule, ScanLeavesNoKeyword and NameAloneYieldsItself |
| Ingredients.TryKeyword | src/lib/ingredients.ts:197-200 | a keyword that occurs is recorded once and every occurrence is masked; any other keyword changes nothing |
| Ingredients.AddRice | src/lib/ingredients.ts:204-214 | 쌀 is added, at most once, exactly to a rice dish whose found set holds neither 찹쌀 nor 오트밀 |
| Ingredients.ExtractedAreIngredients | src/lib/ingredients.ts:188-217 | each extracted ingredient occurs in the normalised name, except 쌀 added by the rice rule |
| Ingredients.ScanFindsIngredients | src/lib/ingredients.ts:196-201 | the loop records only ingredient names, each once, each occurring in the normalised name |
| Ingredients.RiceRule | src/lib/ingredients.ts:203-214 | a rice dish without 찹쌀 or 오트밀 lists 쌀; 쌀 outside a rice dish comes from the name itself |
| Ingredients.ScanLeavesNoKeyword | src/lib/ingredients.ts:196-201 | after the loop the text keeps its length and holds no ingredient name |
| Ingredients.NameAloneYieldsItself | src/lib/ingredients.ts:188-217 | longest-first masking: every one of the 44 ingredient names, alone, yields only itself, not the shorter names inside it |
| Text.SplitOnPlus | src/lib/ingredients.ts:240 | splitting a menu on + gives at least one part, none containing + |
| Text.SplitOnPlusJoin | src/lib/ingredients.ts:240 | a menu name without white space is cut exactly at its + signs: the parts joined by + give the name back |
| Text.TrimStart | src/lib/ingredients.ts:242 | trimming drops exactly the leading white space |
| Text.TrimEnd | src/lib/ingredients.ts:242 | trimming drops exactly the trailing white space |
| ShoppingList.NonEmpty | src/lib/ingredients.ts:236-238 | no kept menu is empty; the kept menus are exactly the non-empty ones, each as often as in the day |
| ShoppingList.NonEmptyAppend | src/lib/ingredients.ts:236-238 | the filter keeps order: it distributes over concatenation |
| ShoppingList.MealsOf | src/lib/ingredients.ts:248 | an ingredient's menus are distinct, and are exactly the menus it was found in |
| ShoppingList.TallyMeaning | src/lib/ingredients.ts:235-252 | the tally lists each used ingredient once in order of first use, with its number of uses and its distinct menus |
| ShoppingList.RecordStep | src/lib/ingredients.ts:243-248 | recording one more use keeps the tally exact |
| ShoppingList.GetWeekIngredientGroups | src/lib/ingredients.ts:221-275 | the nested loops compute the shopping list of the week |
| ShoppingList.ShoppingList | src/lib/ingredients.ts:221-275 | what getWeekIngredientGroups returns; its meaning is stated by TallyMeaning, ShoppingListOrdered, ShoppingListSound and ShoppingListComplete |
| ShoppingList.TallyWeek | src/lib/ingredients.ts:235-252 | the loop over days builds the tally of every use in the week |
| ShoppingList.RecordNextDay | src/lib/ingredients.ts:235-252 | one turn of the day loop extends the tally of the earlier days by that day's uses |
| ShoppingList.RecordDay | src/lib/ingredients.ts:236-251 | one day's loop records the uses of its non-empty menus |
| ShoppingList.RecordNextMeal | src/lib/ingredients.ts:239-250 | one turn of the menu loop extends the tally of the earlier menus by that menu's uses |
| ShoppingList.RecordMeal | src/lib/ingredients.ts:240-250 | one menu's loop records the uses of its trimmed parts |
| ShoppingList.RecordParts | src/lib/ingredients.ts:241-250 | the loop over parts records, in order, the uses of each trimmed part |
| ShoppingList.RecordNextPart | src/lib/ingredients.ts:241-250 | one turn of the part loop extends the tally of the earlier parts by the uses of the trimmed part |
| ShoppingList.RecordPart | src/lib/ingredients.ts:242-249 | one part's loop records one use per extracted ingredient |
| ShoppingList.UseNext | src/lib/ingredients.ts:242-249 | one turn of the ingredient loop extends the tally of the earlier ingredients by one use |
| ShoppingList.Use | src/lib/ingredients.ts:243-248 | one use creates the entry if needed, counts the use and adds the menu |
| ShoppingList.FileByCategory | src/lib/ingredients.ts:254-268 | each category's list holds its used ingredients in tally order, with quantity and menus |
| ShoppingList.EmptyCategoryMap | src/lib/ingredients.ts:254-257 | every listed category starts with an empty list, and no other key is present |
| ShoppingList.FileIngredient | src/lib/ingredients.ts:259-268 | one turn of the filing loop appends the ingredient's entry to its category's list when the ingredient and category are known |
| ShoppingList.ItemsShape | src/lib/ingredients.ts:259-268 | a category's entries are exactly its used ingredients, each with the quantity of its count and its menus |
| ShoppingList.GroupedShape | src/lib/ingredients.ts:270-274 | every group is non-empty, of a listed category, with that category's entries and emoji |
| ShoppingList.GroupedComplete | src/lib/ingredients.ts:270-274 | every listed category with entries has a group |
| ShoppingList.GroupedOrdered | src/lib/ingredients.ts:270-274 | groups follow the category order |
| ShoppingList.WeekHitsFromSlots | src/lib/ingredients.ts:235-242 | every use is of an ingredient name, in a non-empty menu of some day |
| ShoppingList.CountPerPart | src/lib/ingredients.ts:241-247 | a menu counts one use of an ingredient per part that contains it |
| ShoppingList.ShoppingListOrdered | src/lib/ingredients.ts:270-274 | the shopping list's groups follow the fixed category order |
| ShoppingList.ShoppingListSound | src/lib/ingredients.ts:221-275 | each group is a non-empty category with its emoji; each entry is an ingredient of that category found in the week, with the quantity for its use count and its distinct menus |
| ShoppingList.ShoppingListComplete | src/lib/ingredients.ts:221-275 | every ingredient found in the week is an entry of some group |
| Allergens.SearchText | src/lib/allergens.ts:80-83 | the search text starts with the menu name, is the name alone without a recipe, and contains each recipe ingredient |
| Allergens.MatchesIn | src/lib/allergens.ts:85-92 | at most one report per allergen of the list; its meaning is stated by MatchesMembers, MatchesAppend and MatchesOnce |
| Allergens.GetAllergenMatches | src/lib/allergens.ts:79-95 | the loop reports the allergens of the list found in the search text, in list order |
| Allergens.MatchesAppend | src/lib/allergens.ts:87-92 | matches of a list are those of its front followed by those of its back |
| Allergens.MatchesMembers | src/lib/allergens.ts:88 | an allergen is reported exactly when one of its keywords occurs in the text |
| Allergens.MatchesOnce | src/lib/allergens.ts:87-92 | allergens with distinct names are reported at most once each |
| Allergens.AllergenNamesDistinct | src/lib/allergens.ts:10-71 | the twelve allergens have distinct names |
| Allergens.ReportedOnce | src/lib/allergens.ts:87-92 | each listed allergen is reported once exactly when a keyword occurs, and never twice |
| Allergens.RecipeOnlyAdds | src/lib/allergens.ts:81-88 | an allergen found in the menu name is reported whatever the recipe holds |
| Allergens.RecipeIngredientReported | src/lib/allergens.ts:81-88 | a recipe ingredient that is a keyword reveals its allergen |
| Text.ContainsExtend | src/lib/allergens.ts:81-83 | appending text keeps every occurrence |
| Text.JoinContainsParts | src/lib/allergens.ts:82 | every joined part occurs in the joined text |
| Seasonal.CurrentSeasonalIngredients | src/lib/seasonal.ts:33-36 | the table's list for months 1 to 12, none for other numbers |
| Seasonal.MatchedIn | src/lib/seasonal.ts:26 | the kept ingredients are exactly those of the list occurring in the menu name |
| Seasonal.GetSeasonalMatch | src/lib/seasonal.ts:22-30 | null exactly when no ingredient in season occurs in the name; otherwise a non-empty list of exactly those that do |
| Seasonal.MatchedAppend | src/lib/seasonal.ts:26 | the filter keeps the month's order |
| Seasonal.MatchedDistinct | src/lib/seasonal.ts:26 | the filter keeps a list duplicate-free |
| Seasonal.SeasonalListsDistinct | src/lib/seasonal.ts:2-15 | no month lists an ingredient twice |
| Seasonal.SeasonalMatchMeaning | src/lib/seasonal.ts:22-30 | the matches are the month's list filtered by the name, each once; months outside 1 to 12 give null |
| Weight.HandleChange | src/components/WeightInput.tsx:16-22 | an accepted text becomes the stored weight; a rejected one leaves it unchanged |
| Weight.MatchesPattern | src/components/WeightInput.tsx:19 | `/^\d{1,2}(\.\d{0,1})?$/`: one or two digits, then optionally a point and at most one digit; its meaning is stated by AcceptedExamples, RejectedExamples, AcceptedShort and WeightTextRoundTrip |
| Weight.Accepted | src/components/WeightInput.tsx:19 | the empty text or the pattern; prefix-closed (AcceptedPrefixClosed) |
| Weight.HandleChangeKeepsAccepted | src/components/WeightInput.tsx:16-22 | the field only ever holds accepted text of at most four characters |
| Weight.AcceptedShort | src/components/WeightInput.tsx:19 | an accepted text has at most four characters |
| Weight.AcceptedPrefixClosed | src/components/WeightInput.tsx:19 | every prefix of an accepted text is accepted, so weights can be typed character by character |
| Weight.RejectedExamples | src/components/WeightInput.tsx:19 | "123", ".5", "5.25" and "5a" are refused |
| Weight.AcceptedExamples | src/components/WeightInput.tsx:19 | "", "5", "5.", "5.0" and "12.5" are accepted |
| Weight.ShapeWholeDigits | src/components/WeightInput.tsx:19 | the pattern fixes where the whole digits end |
| Weight.Tenths | src/components/WeightInput.tsx:19 | an accepted non-empty text denotes at most 999 tenths of a kilogram |
| Weight.WeightTextRoundTrip | src/components/WeightInput.tsx:19 | every weight of 0 to 999 tenths has an accepted text that reads back as itself |

## Left out

- The clock: today's date, the current year and the current month are parameters.
- Stages.CalcMonths: requires valid dates. JavaScript `Date` rolls an out-of-range day or month over into the next month, and that roll-over is not modelled.
- `Math.random`: every shuffle takes its draws as a parameter. The model states what any draws yield, not how likely each result is.
- Floating point: a weight is a whole number of tenths of a kilogram, so `Math.round(weightKg * 150)` is exactly 15 per tenth. The other divisions in the model are whole-number divisions of non-negative values, where flooring agrees.
- Ingredients.CalcQuantity: returns a quantity value, not the display text. The text forms ("약 200g", "약 1.2kg" through `toFixed(1)`) are not modelled. An ingredient without an amount gives `NoQuantity` instead of "".
- The Coupang and Kurly search links of `src/lib/ingredients.ts`: URL building, outside the core.
- The recipe table behind `getRecipe`: it is not part of this model, and the lookup is a parameter.
- Rendering: the React components, labels and styling. Only `buildSchedule` and the weight field's acceptance test are modelled.
- The toddler and general-toddler stages share one pool value here. The source writes the same lists out twice.
- Text.SplitOnPlus: its contract states that there is at least one part and that no part holds `+`, and SplitOnPlusJoin gives the round trip for names without white space. That, with white space, each part is the text between two `+` signs trimmed is its definition, not a proved property.
- `pickSeven` is `PickN` with n = 7 at its call sites.
- Strings are sequences of Unicode characters. Every character the code measures or searches (Hangul, ASCII, ⬜) is one UTF-16 code unit, so lengths and indices agree with JavaScript.
- The map from an ingredient to its use count and menus is a value that the methods reassign, not an object updated in place.
