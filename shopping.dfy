/** `getWeekIngredientGroups` of `src/lib/ingredients.ts`: the shopping list of a week, one
    group per category in the fixed category order, each ingredient with its rounded quantity
    and the menus that use it. */
module ShoppingList {
  import opened Options
  import opened Text
  import opened Sequences
  import opened Ingredients

  /** The four menu names of a day. */
  datatype DayMenu = DayMenu(breakfast: string, lunch: string, dinner: string, snack: string)

  function Slots(d: DayMenu): seq<string> {
    [d.breakfast, d.lunch, d.dinner, d.snack]
  }

  /** `filter(Boolean)` on strings: the non-empty ones, in order. */
  function NonEmpty(s: seq<string>): (r: seq<string>)
    ensures "" !in r
    ensures forall x :: x in r <==> x in s && x != ""
    ensures forall x :: x != "" ==> multiset(r)[x] == multiset(s)[x]
  {
    if s == [] then []
    else
      var prev := s[..|s| - 1];
      var r := NonEmpty(prev);
      assert s == prev + [s[|s| - 1]];
      assert forall x :: x in s <==> x in prev || x == s[|s| - 1];
      if s[|s| - 1] == "" then r else r + [s[|s| - 1]]
  }

  /** The filter keeps order: it distributes over concatenation, so the menus kept are those
      of `s` in the same order, each as often as it occurs. */
  lemma {:induction false} NonEmptyAppend(a: seq<string>, b: seq<string>)
    ensures NonEmpty(a + b) == NonEmpty(a) + NonEmpty(b)
  {
    if b == [] {
      assert a + b == a;
    } else {
      var n := |b| - 1;
      assert (a + b)[..|a + b| - 1] == a + b[..n];
      NonEmptyAppend(a, b[..n]);
    }
  }

  /** One use of an ingredient: the ingredient and the full menu name it was found in. */
  datatype Hit = Hit(ingredient: string, meal: string)

  /** The uses found in one part of a menu. */
  function PartHits(ings: seq<string>, meal: string): (r: seq<Hit>)
    ensures |r| == |ings| && forall i :: 0 <= i < |ings| ==> r[i] == Hit(ings[i], meal)
  {
    if ings == [] then [] else PartHits(ings[..|ings| - 1], meal) + [Hit(ings[|ings| - 1], meal)]
  }

  /** The uses found in the parts of a menu, each part trimmed. */
  function MealHits(parts: seq<string>, meal: string): seq<Hit> {
    if parts == [] then []
    else MealHits(parts[..|parts| - 1], meal) + PartHits(IngredientsOf(Trim(parts[|parts| - 1])), meal)
  }

  /** The uses found in the filled slots of a day, each menu split on `+`. */
  function DayHits(meals: seq<string>): seq<Hit> {
    if meals == [] then []
    else
      var meal := meals[|meals| - 1];
      DayHits(meals[..|meals| - 1]) + MealHits(SplitOnPlus(meal), meal)
  }

  /** Every use in the week, in the order the loops meet them. */
  function WeekHits(week: seq<DayMenu>): seq<Hit> {
    if week == [] then []
    else WeekHits(week[..|week| - 1]) + DayHits(NonEmpty(Slots(week[|week| - 1])))
  }

  /** What is recorded for an ingredient: its use count and the menus that use it, as a set
      in insertion order. */
  datatype Usage = Usage(count: nat, meals: seq<string>)

  /** `ingredientData`: a map in insertion order. */
  datatype Tally = Tally(order: seq<string>, usage: map<string, Usage>)

  /** Recording one use: create the entry on first use, then count the use and add the menu. */
  function Record(t: Tally, h: Hit): Tally {
    var u := if h.ingredient in t.usage then t.usage[h.ingredient] else Usage(0, []);
    var order := if h.ingredient in t.usage then t.order else t.order + [h.ingredient];
    Tally(order, t.usage[h.ingredient := Usage(u.count + 1, AddNew(u.meals, h.meal))])
  }

  function RecordAll(t: Tally, hits: seq<Hit>): Tally {
    if hits == [] then t else Record(RecordAll(t, hits[..|hits| - 1]), hits[|hits| - 1])
  }

  /** Independent description of the tally. The number of uses of `ing`: */
  function CountOf(hits: seq<Hit>, ing: string): nat {
    if hits == [] then 0
    else CountOf(hits[..|hits| - 1], ing) + (if hits[|hits| - 1].ingredient == ing then 1 else 0)
  }

  /** The distinct menus that use `ing`, in order of first use. */
  function MealsOf(hits: seq<Hit>, ing: string): (r: seq<string>)
    ensures Distinct(r)
    ensures forall m :: m in r <==> Hit(ing, m) in hits
  {
    if hits == [] then []
    else
      var prev := hits[..|hits| - 1];
      var h := hits[|hits| - 1];
      assert forall x :: x in hits <==> x in prev || x == h;
      if h.ingredient == ing then AddNew(MealsOf(prev, ing), h.meal) else MealsOf(prev, ing)
  }

  /** The distinct ingredients used, in order of first use. */
  function FirstUses(hits: seq<Hit>): (r: seq<string>)
    ensures Distinct(r)
    ensures forall ing :: ing in r <==> exists m :: Hit(ing, m) in hits
  {
    if hits == [] then []
    else
      var prev := hits[..|hits| - 1];
      var h := hits[|hits| - 1];
      assert forall x :: x in hits <==> x in prev || x == h;
      assert Hit(h.ingredient, h.meal) in hits;
      AddNew(FirstUses(prev), h.ingredient)
  }

  /** `t` is the tally of `hits`: each used ingredient once, in order of first use, with its
      number of uses and the distinct menus that use it. */
  ghost predicate Describes(t: Tally, hits: seq<Hit>) {
    t.order == FirstUses(hits)
    && (forall ing :: ing in t.usage <==> ing in t.order)
    && forall ing :: ing in t.usage ==> t.usage[ing] == Usage(CountOf(hits, ing), MealsOf(hits, ing))
  }

  /** Recording the uses one by one builds their tally. */
  lemma {:induction false} TallyMeaning(hits: seq<Hit>)
    ensures Describes(RecordAll(Tally([], map[]), hits), hits)
  {
    if hits != [] {
      var prev, h := hits[..|hits| - 1], hits[|hits| - 1];
      assert prev + [h] == hits;
      var t := RecordAll(Tally([], map[]), prev);
      assert RecordAll(Tally([], map[]), hits) == Record(t, h);
      TallyMeaning(prev);
      RecordStep(t, prev, h);
    }
  }

  /** Recording one more use keeps the tally exact. */
  lemma {:induction false} RecordStep(t: Tally, hits: seq<Hit>, h: Hit)
    requires Describes(t, hits)
    ensures Describes(Record(t, h), hits + [h])
  {
    var all := hits + [h];
    assert all[..|all| - 1] == hits && all[|all| - 1] == h;
    var r := Record(t, h);
    assert r.order == FirstUses(all);
    forall ing | ing in r.usage ensures r.usage[ing] == Usage(CountOf(all, ing), MealsOf(all, ing)) {
      RecordEntry(t, hits, h, ing);
    }
  }

  /** The entry of one ingredient after recording one more use. */
  lemma {:induction false} RecordEntry(t: Tally, hits: seq<Hit>, h: Hit, ing: string)
    requires Describes(t, hits)
    requires ing in Record(t, h).usage
    ensures Record(t, h).usage[ing] == Usage(CountOf(hits + [h], ing), MealsOf(hits + [h], ing))
  {
    if ing == h.ingredient {
      RecordedEntry(t, hits, h);
    } else {
      OtherEntry(t, hits, h, ing);
    }
  }

  /** The recorded ingredient's entry counts the new use and lists its menu. */
  lemma {:induction false} RecordedEntry(t: Tally, hits: seq<Hit>, h: Hit)
    requires Describes(t, hits)
    ensures Record(t, h).usage[h.ingredient]
      == Usage(CountOf(hits + [h], h.ingredient), MealsOf(hits + [h], h.ingredient))
  {
    var all := hits + [h];
    var ing := h.ingredient;
    assert all[..|all| - 1] == hits && all[|all| - 1] == h;
    assert CountOf(all, ing) == CountOf(hits, ing) + 1;
    assert MealsOf(all, ing) == AddNew(MealsOf(hits, ing), h.meal);
    if ing in t.usage {
      assert t.usage[ing] == Usage(CountOf(hits, ing), MealsOf(hits, ing));
    } else {
      ZeroCount(hits, ing);
    }
  }

  /** Every other entry is left as it was. */
  lemma {:induction false} OtherEntry(t: Tally, hits: seq<Hit>, h: Hit, ing: string)
    requires Describes(t, hits)
    requires ing in Record(t, h).usage && ing != h.ingredient
    ensures Record(t, h).usage[ing] == Usage(CountOf(hits + [h], ing), MealsOf(hits + [h], ing))
  {
    var all := hits + [h];
    assert all[..|all| - 1] == hits && all[|all| - 1] == h;
    assert ing in t.usage;
  }

  /** An ingredient not yet used has no count and no menus. */
  lemma {:induction false} ZeroCount(hits: seq<Hit>, ing: string)
    requires ing !in FirstUses(hits)
    ensures CountOf(hits, ing) == 0 && MealsOf(hits, ing) == []
  {
    if hits != [] {
      var prev := hits[..|hits| - 1];
      assert forall x :: x in prev ==> x in hits;
      ZeroCount(prev, ing);
    }
  }

  // ---------------------------------------------------------------------------
  // Grouping by category

  /** An entry of the shopping list. */
  datatype Item = Item(name: string, emoji: string, quantity: Quantity, meals: seq<string>)

  /** The entries of one category. */
  datatype CategoryGroup = CategoryGroup(category: string, emoji: string, items: seq<Item>)

  /** The entry for `ing` when it belongs to category `cat`, else nothing. */
  function ItemIn(ing: string, usage: map<string, Usage>, cat: string): seq<Item> {
    match Lookup(InfoTable, ing)
    case Some(info) =>
      if info.category == cat && ing in usage then
        [Item(ing, info.emoji, CalcQuantity(ing, usage[ing].count), usage[ing].meals)]
      else []
    case None => []
  }

  /** The entries of category `cat`, in the tally's order. */
  function ItemsOf(order: seq<string>, usage: map<string, Usage>, cat: string): seq<Item> {
    if order == [] then []
    else ItemsOf(order[..|order| - 1], usage, cat) + ItemIn(order[|order| - 1], usage, cat)
  }

  /** `categoryMap` once every ingredient of the tally has been filed. */
  function ItemTable(order: seq<string>, usage: map<string, Usage>): map<string, seq<Item>> {
    map cat | cat in CategoryOrder :: ItemsOf(order, usage, cat)
  }

  /** `cats.map(cat => group of categoryMap.get(cat) || []).filter(non-empty)`. */
  function Grouped(cats: seq<string>, table: map<string, seq<Item>>): seq<CategoryGroup> {
    if cats == [] then []
    else
      var cat := cats[|cats| - 1];
      var items := if cat in table then table[cat] else [];
      Grouped(cats[..|cats| - 1], table)
        + (if items == [] then [] else [CategoryGroup(cat, CategoryEmoji(cat), items)])
  }

  /** What `getWeekIngredientGroups` returns. */
  function ShoppingList(week: seq<DayMenu>): seq<CategoryGroup> {
    var t := RecordAll(Tally([], map[]), WeekHits(week));
    Grouped(CategoryOrder, ItemTable(t.order, t.usage))
  }

  /** `getWeekIngredientGroups`: tally every ingredient use of the week, then file each used
      ingredient under its category and list the non-empty categories in order. */
  method GetWeekIngredientGroups(week: seq<DayMenu>) returns (groups: seq<CategoryGroup>)
    ensures groups == ShoppingList(week)
  {
    var data := TallyWeek(week);
    TallyMeaning(WeekHits(week));
    var categoryMap := FileByCategory(data.order, data.usage);
    groups := Grouped(CategoryOrder, categoryMap);
  }

  /** The loop over the days of the week, filling `ingredientData`. */
  method TallyWeek(week: seq<DayMenu>) returns (data: Tally)
    ensures data == RecordAll(Tally([], map[]), WeekHits(week))
  {
    data := Tally([], map[]);
    var d := 0;
    while d < |week|
      invariant 0 <= d <= |week|
      invariant data == RecordAll(Tally([], map[]), WeekHits(week[..d]))
    {
      data := RecordNextDay(week, d, data);
      d := d + 1;
    }
    WholePrefix(week);
  }

  /** One turn of the loop over days. */
  method RecordNextDay(week: seq<DayMenu>, d: nat, data: Tally) returns (r: Tally)
    requires d < |week| && data == RecordAll(Tally([], map[]), WeekHits(week[..d]))
    ensures r == RecordAll(Tally([], map[]), WeekHits(week[..d + 1]))
  {
    WeekStep(week, d);
    r := RecordDay(data, week[d]);
  }

  /** The loop over the filled slots of a day, `[breakfast, lunch, dinner, snack].filter(Boolean)`. */
  method RecordDay(t: Tally, day: DayMenu) returns (r: Tally)
    ensures r == RecordAll(t, DayHits(NonEmpty(Slots(day))))
  {
    var meals := NonEmpty(Slots(day));
    r := t;
    var j := 0;
    while j < |meals|
      invariant 0 <= j <= |meals|
      invariant r == RecordAll(t, DayHits(meals[..j]))
    {
      r := RecordNextMeal(t, meals, j, r);
      j := j + 1;
    }
    WholePrefix(meals);
  }

  /** One turn of the loop over a day's menus. */
  method RecordNextMeal(t: Tally, meals: seq<string>, j: nat, r: Tally) returns (r': Tally)
    requires j < |meals| && r == RecordAll(t, DayHits(meals[..j]))
    ensures r' == RecordAll(t, DayHits(meals[..j + 1]))
  {
    DayStep(t, meals, j);
    r' := RecordMeal(r, meals[j]);
  }

  /** Recording a menu: split on `+` with the spaces around it, then each part. */
  method RecordMeal(t: Tally, meal: string) returns (r: Tally)
    ensures r == RecordAll(t, MealHits(SplitOnPlus(meal), meal))
  {
    r := RecordParts(t, SplitOnPlus(meal), meal);
  }

  /** The loop over the parts `parts` of the menu `meal`. */
  method RecordParts(t: Tally, parts: seq<string>, meal: string) returns (r: Tally)
    ensures r == RecordAll(t, MealHits(parts, meal))
  {
    r := t;
    var k := 0;
    while k < |parts|
      invariant 0 <= k <= |parts|
      invariant r == RecordAll(t, MealHits(parts[..k], meal))
    {
      r := RecordNextPart(t, parts, k, meal, r);
      k := k + 1;
    }
    WholePrefix(parts);
  }

  /** One turn of the loop over parts: extract the ingredients of the trimmed part and record
      each. */
  method RecordNextPart(t: Tally, parts: seq<string>, k: nat, meal: string, r: Tally) returns (r': Tally)
    requires k < |parts| && r == RecordAll(t, MealHits(parts[..k], meal))
    ensures r' == RecordAll(t, MealHits(parts[..k + 1], meal))
  {
    MealStep(t, parts, k, meal);
    var ings := ExtractIngredients(Trim(parts[k]));
    r' := RecordPart(r, ings, meal);
  }

  /** The loop over the ingredients of one part: count the use and add the full menu name. */
  method RecordPart(t: Tally, ings: seq<string>, meal: string) returns (r: Tally)
    ensures r == RecordAll(t, PartHits(ings, meal))
  {
    var order := t.order;
    var usage := t.usage;
    var l := 0;
    while l < |ings|
      invariant 0 <= l <= |ings|
      invariant Tally(order, usage) == RecordAll(t, PartHits(ings[..l], meal))
    {
      order, usage := UseNext(t, ings, l, meal, order, usage);
      l := l + 1;
    }
    WholePrefix(ings);
    r := Tally(order, usage);
  }

  /** One turn of the loop over a part's ingredients. */
  method UseNext(t: Tally, ings: seq<string>, l: nat, meal: string, order: seq<string>, usage: map<string, Usage>)
    returns (order': seq<string>, usage': map<string, Usage>)
    requires l < |ings| && Tally(order, usage) == RecordAll(t, PartHits(ings[..l], meal))
    ensures Tally(order', usage') == RecordAll(t, PartHits(ings[..l + 1], meal))
  {
    PartStep(t, ings, l, meal);
    order', usage' := Use(order, usage, ings[l], meal);
  }

  /** One use: create the entry on first use, then count the use and add the menu name to
      the entry's set of menus. */
  method Use(order: seq<string>, usage: map<string, Usage>, ing: string, meal: string)
    returns (order': seq<string>, usage': map<string, Usage>)
    ensures Tally(order', usage') == Record(Tally(order, usage), Hit(ing, meal))
  {
    order', usage' := order, usage;
    if ing !in usage' {
      order' := order' + [ing];
      usage' := usage'[ing := Usage(0, [])];
    }
    var u := usage'[ing];
    var menus := u.meals;
    if meal !in menus {
      menus := menus + [meal];
    }
    usage' := usage'[ing := Usage(u.count + 1, menus)];
    assert usage' == usage[ing := Usage(u.count + 1, menus)];
  }

  /** The second loop: file each used ingredient, in order of first use, under its category. */
  method FileByCategory(order: seq<string>, usage: map<string, Usage>) returns (categoryMap: map<string, seq<Item>>)
    requires forall ing :: ing in order ==> ing in usage
    ensures categoryMap == ItemTable(order, usage)
  {
    categoryMap := EmptyCategoryMap();
    EmptyTable(usage);
    assert order[..0] == [];
    var i := 0;
    while i < |order|
      invariant 0 <= i <= |order|
      invariant categoryMap == ItemTable(order[..i], usage)
    {
      categoryMap := FileIngredient(categoryMap, order[i], usage);
      FileOne(order, usage, i);
      i := i + 1;
    }
    WholePrefix(order);
  }

  /** `categoryMap.set(cat, [])` for each category in order. */
  method EmptyCategoryMap() returns (categoryMap: map<string, seq<Item>>)
    ensures categoryMap == map cat | cat in CategoryOrder :: []
  {
    categoryMap := map[];
    var c := 0;
    while c < |CategoryOrder|
      invariant 0 <= c <= |CategoryOrder|
      invariant categoryMap == map cat | cat in CategoryOrder[..c] :: []
    {
      assert CategoryOrder[..c + 1] == CategoryOrder[..c] + [CategoryOrder[c]];
      categoryMap := categoryMap[CategoryOrder[c] := []];
      c := c + 1;
    }
    WholePrefix(CategoryOrder);
  }

  /** One turn of the filing loop: push the entry for `ing` onto its category's list, if the
      ingredient and its category are known. */
  method FileIngredient(categoryMap: map<string, seq<Item>>, ing: string, usage: map<string, Usage>)
    returns (r: map<string, seq<Item>>)
    requires ing in usage
    ensures r == Filed(categoryMap, ing, usage)
  {
    var data := usage[ing];
    var info := Lookup(InfoTable, ing);
    r := categoryMap;
    if info.Some? && info.value.category in categoryMap {
      var cat := info.value.category;
      r := categoryMap[cat := categoryMap[cat]
        + [Item(ing, info.value.emoji, CalcQuantity(ing, data.count), data.meals)]];
    }
  }

  /** Recording one more day, menu, part or ingredient extends the recorded prefix. */
  lemma {:induction false} WeekStep(week: seq<DayMenu>, d: nat)
    requires d < |week|
    ensures RecordAll(RecordAll(Tally([], map[]), WeekHits(week[..d])), DayHits(NonEmpty(Slots(week[d]))))
         == RecordAll(Tally([], map[]), WeekHits(week[..d + 1]))
  {
    assert week[..d + 1][..d] == week[..d];
    RecordAllAppend(Tally([], map[]), WeekHits(week[..d]), DayHits(NonEmpty(Slots(week[d]))));
  }

  lemma {:induction false} DayStep(t: Tally, meals: seq<string>, j: nat)
    requires j < |meals|
    ensures RecordAll(RecordAll(t, DayHits(meals[..j])), MealHits(SplitOnPlus(meals[j]), meals[j]))
         == RecordAll(t, DayHits(meals[..j + 1]))
  {
    assert meals[..j + 1][..j] == meals[..j];
    RecordAllAppend(t, DayHits(meals[..j]), MealHits(SplitOnPlus(meals[j]), meals[j]));
  }

  lemma {:induction false} MealStep(t: Tally, parts: seq<string>, k: nat, meal: string)
    requires k < |parts|
    ensures RecordAll(RecordAll(t, MealHits(parts[..k], meal)), PartHits(IngredientsOf(Trim(parts[k])), meal))
         == RecordAll(t, MealHits(parts[..k + 1], meal))
  {
    assert parts[..k + 1][..k] == parts[..k];
    RecordAllAppend(t, MealHits(parts[..k], meal), PartHits(IngredientsOf(Trim(parts[k])), meal));
  }

  lemma {:induction false} PartStep(t: Tally, ings: seq<string>, l: nat, meal: string)
    requires l < |ings|
    ensures Record(RecordAll(t, PartHits(ings[..l], meal)), Hit(ings[l], meal))
         == RecordAll(t, PartHits(ings[..l + 1], meal))
  {
    assert ings[..l + 1][..l] == ings[..l];
    RecordOne(t, PartHits(ings[..l], meal), Hit(ings[l], meal));
  }

  /** Before any ingredient is filed every category is empty. */
  lemma {:induction false} EmptyTable(usage: map<string, Usage>)
    ensures ItemTable([], usage) == map cat | cat in CategoryOrder :: []
  {
  }

  /** Recording uses in two pieces. */
  lemma {:induction false} RecordAllAppend(t: Tally, a: seq<Hit>, b: seq<Hit>)
    ensures RecordAll(t, a + b) == RecordAll(RecordAll(t, a), b)
    decreases |b|
  {
    if b == [] {
      assert a + b == a;
    } else {
      assert (a + b)[..|a + b| - 1] == a + b[..|b| - 1];
      RecordAllAppend(t, a, b[..|b| - 1]);
    }
  }

  /** Recording a use after `hits`. */
  lemma {:induction false} RecordOne(t: Tally, hits: seq<Hit>, h: Hit)
    ensures RecordAll(t, hits + [h]) == Record(RecordAll(t, hits), h)
  {
    assert (hits + [h])[..|hits|] == hits;
  }

  /** `categoryMap` after filing `ing`: its entry is appended to its category's list when the
      ingredient has a known category that the table lists. */
  function Filed(table: map<string, seq<Item>>, ing: string, usage: map<string, Usage>): map<string, seq<Item>>
    requires ing in usage
  {
    var info := Lookup(InfoTable, ing);
    if info.Some? && info.value.category in table then
      table[info.value.category := table[info.value.category]
        + [Item(ing, info.value.emoji, CalcQuantity(ing, usage[ing].count), usage[ing].meals)]]
    else table
  }

  /** Filing the ingredient at index `i` extends its category's entries, and only those. */
  lemma {:induction false} FileOne(order: seq<string>, usage: map<string, Usage>, i: nat)
    requires i < |order| && order[i] in usage
    ensures ItemTable(order[..i + 1], usage) == Filed(ItemTable(order[..i], usage), order[i], usage)
  {
    assert order[..i + 1][..i] == order[..i];
    FiledIsAppend(ItemTable(order[..i], usage), ItemTable(order[..i + 1], usage), order[i], usage);
  }

  /** A table whose every category's list grows by that category's entry for `ing` is the
      table with `ing` filed. */
  lemma {:induction false} FiledIsAppend(before: map<string, seq<Item>>, after: map<string, seq<Item>>, ing: string,
                      usage: map<string, Usage>)
    requires ing in usage
    requires before.Keys == after.Keys
    requires forall cat :: cat in before ==> after[cat] == before[cat] + ItemIn(ing, usage, cat)
    ensures after == Filed(before, ing, usage)
  {
    var info := Lookup(InfoTable, ing);
    var expected := Filed(before, ing, usage);
    assert after.Keys == expected.Keys;
    forall cat | cat in after ensures after[cat] == expected[cat] {
      ItemInCases(ing, usage, cat);
    }
  }

  /** The entry for `ing` under `cat`: one item when `cat` is its category, else none. */
  lemma {:induction false} ItemInCases(ing: string, usage: map<string, Usage>, cat: string)
    requires ing in usage
    ensures var info := Lookup(InfoTable, ing);
      ItemIn(ing, usage, cat)
      == if info.Some? && info.value.category == cat
         then [Item(ing, info.value.emoji, CalcQuantity(ing, usage[ing].count), usage[ing].meals)]
         else []
  {
  }

  // ---------------------------------------------------------------------------
  // What the list says

  /** Position of `x` in `s`: its first index, or -1. */
  function Rank(s: seq<string>, x: string): (r: int)
    ensures -1 <= r < |s|
    ensures r >= 0 ==> s[r] == x && x !in s[..r]
    ensures r < 0 <==> x !in s
  {
    if s == [] then -1
    else if s[0] == x then 0
    else
      var r := Rank(s[1..], x);
      if r < 0 then -1
      else
        assert s[..r + 1] == [s[0]] + s[1..][..r];
        r + 1
  }

  /** The first index of an element of a prefix is its first index in the prefix. */
  lemma {:induction false} RankInPrefix(s: seq<string>, n: nat, x: string)
    requires n <= |s| && x in s[..n]
    ensures Rank(s, x) == Rank(s[..n], x) && Rank(s, x) < n
  {
    var r := Rank(s[..n], x);
    assert s[..n][..r] == s[..r];
  }

  /** Groups are non-empty and carry their category's list and emoji. */
  lemma {:induction false} GroupedShape(cats: seq<string>, table: map<string, seq<Item>>)
    ensures forall g :: g in Grouped(cats, table) ==>
      g.items != [] && g.category in cats && g.category in table
      && g.items == table[g.category] && g.emoji == CategoryEmoji(g.category)
  {
    if cats != [] {
      var prev := cats[..|cats| - 1];
      GroupedShape(prev, table);
      assert forall x :: x in prev ==> x in cats;
    }
  }

  /** Every category with entries has a group. */
  lemma {:induction false} GroupedComplete(cats: seq<string>, table: map<string, seq<Item>>, cat: string)
    requires cat in cats && cat in table && table[cat] != []
    ensures exists g :: g in Grouped(cats, table) && g.category == cat
  {
    var n := |cats| - 1;
    var prev := cats[..n];
    var r := Grouped(cats, table);
    var front := Grouped(prev, table);
    if cat == cats[n] {
      assert r == front + [CategoryGroup(cat, CategoryEmoji(cat), table[cat])];
      assert r[|r| - 1].category == cat;
    } else {
      assert r[..|front|] == front;
      assert cat in prev;
      GroupedComplete(prev, table, cat);
      var g :| g in front && g.category == cat;
      assert g in r;
    }
  }

  /** The groups follow the order of their categories in `cats`. */
  predicate InOrderOf(groups: seq<CategoryGroup>, cats: seq<string>) {
    forall i, j :: 0 <= i < j < |groups| ==> Rank(cats, groups[i].category) < Rank(cats, groups[j].category)
  }

  lemma {:induction false} GroupedOrdered(cats: seq<string>, table: map<string, seq<Item>>)
    requires Distinct(cats)
    ensures InOrderOf(Grouped(cats, table), cats)
  {
    if cats != [] {
      var n := |cats| - 1;
      var prev := cats[..n];
      var cat := cats[n];
      var items := if cat in table then table[cat] else [];
      var last := if items == [] then [] else [CategoryGroup(cat, CategoryEmoji(cat), items)];
      assert Distinct(prev);
      GroupedOrdered(prev, table);
      GroupedShape(prev, table);
      RankedAppend(cats, prev, Grouped(prev, table), last);
    }
  }

  /** Appending a group of the last category to groups ordered by the earlier ones. */
  lemma {:induction false} RankedAppend(cats: seq<string>, prev: seq<string>, head: seq<CategoryGroup>, last: seq<CategoryGroup>)
    requires Distinct(cats) && cats != [] && prev == cats[..|cats| - 1]
    requires forall g :: g in head ==> g.category in prev
    requires InOrderOf(head, prev)
    requires |last| <= 1 && forall k :: 0 <= k < |last| ==> last[k].category == cats[|cats| - 1]
    ensures InOrderOf(head + last, cats)
  {
    var n := |cats| - 1;
    forall x | x in prev ensures Rank(cats, x) == Rank(prev, x) && Rank(cats, x) < n {
      RankInPrefix(cats, n, x);
    }
    assert Rank(cats, cats[n]) == n;
    var r := head + last;
    forall i, j | 0 <= i < j < |r| ensures Rank(cats, r[i].category) < Rank(cats, r[j].category) {
      assert r[i] == head[i] && head[i] in head;
      if j < |head| {
        assert r[j] == head[j] && head[j] in head;
      } else {
        assert r[j] == last[j - |head|];
      }
    }
  }

  /** Each entry of category `cat` is a used ingredient of that category, with the quantity
      of its use count and its menus; every used ingredient of the category has one. */
  lemma {:induction false} ItemsShape(order: seq<string>, usage: map<string, Usage>, cat: string)
    ensures var items := ItemsOf(order, usage, cat);
      (forall it :: it in items ==>
         (it.name in order && it.name in usage
          && Lookup(InfoTable, it.name) == Some(Info(cat, it.emoji))
          && it.quantity == CalcQuantity(it.name, usage[it.name].count)
          && it.meals == usage[it.name].meals))
      && forall ing ::
           (ing in order && ing in usage && Lookup(InfoTable, ing).Some?
            && Lookup(InfoTable, ing).value.category == cat) ==> exists it :: it in items && it.name == ing
  {
    ItemsSound(order, usage, cat);
    ItemsComplete(order, usage, cat);
  }

  /** Every entry of category `cat` is a used ingredient of that category, with its quantity
      and menus. */
  lemma {:induction false} ItemsSound(order: seq<string>, usage: map<string, Usage>, cat: string)
    ensures forall it :: it in ItemsOf(order, usage, cat) ==>
      (it.name in order && it.name in usage
       && Lookup(InfoTable, it.name) == Some(Info(cat, it.emoji))
       && it.quantity == CalcQuantity(it.name, usage[it.name].count)
       && it.meals == usage[it.name].meals)
  {
    if order != [] {
      var prev := order[..|order| - 1];
      var ing := order[|order| - 1];
      assert ItemsOf(order, usage, cat) == ItemsOf(prev, usage, cat) + ItemIn(ing, usage, cat);
      assert forall x :: x in prev ==> x in order;
      ItemsSound(prev, usage, cat);
    }
  }

  /** Every used ingredient of category `cat` has an entry. */
  lemma {:induction false} ItemsComplete(order: seq<string>, usage: map<string, Usage>, cat: string)
    ensures forall ing ::
      (ing in order && ing in usage && Lookup(InfoTable, ing).Some?
       && Lookup(InfoTable, ing).value.category == cat) ==> exists it :: it in ItemsOf(order, usage, cat) && it.name == ing
  {
    if order != [] {
      var prev := order[..|order| - 1];
      var ing := order[|order| - 1];
      var items := ItemsOf(order, usage, cat);
      assert items == ItemsOf(prev, usage, cat) + ItemIn(ing, usage, cat);
      assert forall x :: x in order <==> x in prev || x == ing;
      ItemsComplete(prev, usage, cat);
      assert forall it :: it in ItemsOf(prev, usage, cat) ==> it in items;
    }
  }

  /** Every use in the week is of an ingredient name and comes from a filled slot. */
  lemma {:induction false} WeekHitsFromSlots(week: seq<DayMenu>)
    ensures forall h :: h in WeekHits(week) ==>
      h.ingredient in IngredientNames && h.meal != "" && exists d :: d in week && h.meal in Slots(d)
  {
    if week != [] {
      var prev := week[..|week| - 1];
      var day := week[|week| - 1];
      WeekHitsFromSlots(prev);
      DayHitsFromMeals(NonEmpty(Slots(day)));
      forall h | h in WeekHits(week)
        ensures h.ingredient in IngredientNames && h.meal != "" && exists d :: d in week && h.meal in Slots(d)
      {
        if h in WeekHits(prev) {
          var d :| d in prev && h.meal in Slots(d);
          assert d in week;
        } else {
          assert day in week;
        }
      }
    }
  }

  lemma {:induction false} DayHitsFromMeals(meals: seq<string>)
    ensures forall h :: h in DayHits(meals) ==> h.ingredient in IngredientNames && h.meal in meals
  {
    if meals != [] {
      var prev := meals[..|meals| - 1];
      var meal := meals[|meals| - 1];
      DayHitsFromMeals(prev);
      MealHitsFromParts(SplitOnPlus(meal), meal);
      assert forall x :: x in prev ==> x in meals;
    }
  }

  lemma {:induction false} MealHitsFromParts(parts: seq<string>, meal: string)
    ensures forall h :: h in MealHits(parts, meal) ==> h.ingredient in IngredientNames && h.meal == meal
  {
    if parts != [] {
      MealHitsFromParts(parts[..|parts| - 1], meal);
      ExtractedAreIngredients(Trim(parts[|parts| - 1]));
    }
  }

  /** The number of parts from which `ing` is extracted. */
  function PartsUsing(parts: seq<string>, ing: string): nat {
    if parts == [] then 0
    else PartsUsing(parts[..|parts| - 1], ing) + (if ing in IngredientsOf(Trim(parts[|parts| - 1])) then 1 else 0)
  }

  /** One use is counted per part and ingredient: a menu counts each ingredient once for
      every part it is extracted from. */
  lemma {:induction false} CountPerPart(parts: seq<string>, meal: string, ing: string)
    ensures CountOf(MealHits(parts, meal), ing) == PartsUsing(parts, ing)
  {
    if parts != [] {
      var prev := parts[..|parts| - 1];
      CountPerPart(prev, meal, ing);
      PartCount(MealHits(prev, meal), parts[|parts| - 1], meal, ing);
    }
  }

  /** The uses of one more part add one to an ingredient's count when the part holds it. */
  lemma {:induction false} PartCount(before: seq<Hit>, part: string, meal: string, ing: string)
    ensures var ings := IngredientsOf(Trim(part));
      CountOf(before + PartHits(ings, meal), ing) == CountOf(before, ing) + if ing in ings then 1 else 0
  {
    var ings := IngredientsOf(Trim(part));
    CountOfAppend(before, PartHits(ings, meal), ing);
    ExtractedDistinct(Trim(part));
    CountOfDistinct(ings, meal, ing);
  }

  lemma {:induction false} CountOfAppend(a: seq<Hit>, b: seq<Hit>, ing: string)
    ensures CountOf(a + b, ing) == CountOf(a, ing) + CountOf(b, ing)
    decreases |b|
  {
    if b == [] {
      assert a + b == a;
    } else {
      assert (a + b)[..|a + b| - 1] == a + b[..|b| - 1];
      CountOfAppend(a, b[..|b| - 1], ing);
    }
  }

  /** In the uses of a duplicate-free ingredient list, each ingredient is counted at most once. */
  lemma {:induction false} CountOfDistinct(ings: seq<string>, meal: string, ing: string)
    requires Distinct(ings)
    ensures CountOf(PartHits(ings, meal), ing) == if ing in ings then 1 else 0
  {
    if ings != [] {
      var prev := ings[..|ings| - 1];
      assert PartHits(ings, meal)[..|ings| - 1] == PartHits(prev, meal);
      CountOfDistinct(prev, meal, ing);
      assert forall x :: x in ings <==> x in prev || x == ings[|ings| - 1];
    }
  }

  lemma {:induction false} ExtractedDistinct(name: string)
    ensures Distinct(IngredientsOf(name))
  {
    ExtractedAreIngredients(name);
  }

  // ---------------------------------------------------------------------------
  // What the shopping list means

  /** The category names are distinct, so each category has one place in the order. */
  lemma {:induction false} CategoryOrderDistinct()
    ensures Distinct(CategoryOrder)
  {
    forall i, j | 0 <= i < j < |CategoryOrder| ensures CategoryOrder[i] != CategoryOrder[j] {
      assert CategoryOrder[i][0] != CategoryOrder[j][0] || CategoryOrder[i][1] != CategoryOrder[j][1];
    }
  }

  /** Every ingredient name has a table entry and its category is one of the listed ones. */
  lemma {:induction false} NameHasCategory(ing: string)
    requires ing in IngredientNames
    ensures Lookup(InfoTable, ing).Some? && Lookup(InfoTable, ing).value.category in CategoryOrder
  {
    var k :| 0 <= k < |IngredientNames| && IngredientNames[k] == ing;
    assert InfoTable[k].0 == ing;
    var i :| 0 <= i < |InfoTable| && InfoTable[i].0 == ing && InfoTable[i].1 == Lookup(InfoTable, ing).value;
    InfoCategoryListed(i);
  }

  /** The groups follow the fixed category order. */
  lemma {:induction false} ShoppingListOrdered(week: seq<DayMenu>)
    ensures InOrderOf(ShoppingList(week), CategoryOrder)
  {
    var t := RecordAll(Tally([], map[]), WeekHits(week));
    CategoryOrderDistinct();
    GroupedOrdered(CategoryOrder, ItemTable(t.order, t.usage));
  }

  /** Each group is a non-empty list of its category with that category's emoji; each entry is
      an ingredient of that category found in the week, with the quantity for its number of
      uses and the distinct menus that use it. */
  lemma {:induction false} ShoppingListSound(week: seq<DayMenu>)
    ensures var hits := WeekHits(week);
      forall g | g in ShoppingList(week) ::
        g.items != [] && g.category in CategoryOrder && g.emoji == CategoryEmoji(g.category)
        && forall it | it in g.items ::
             Lookup(InfoTable, it.name) == Some(Info(g.category, it.emoji))
             && (exists m :: Hit(it.name, m) in hits)
             && it.quantity == CalcQuantity(it.name, CountOf(hits, it.name))
             && it.meals == MealsOf(hits, it.name)
  {
    var hits := WeekHits(week);
    var t := RecordAll(Tally([], map[]), hits);
    var table := ItemTable(t.order, t.usage);
    TallyMeaning(hits);
    GroupedShape(CategoryOrder, table);
    forall g | g in ShoppingList(week)
      ensures forall it | it in g.items ::
             Lookup(InfoTable, it.name) == Some(Info(g.category, it.emoji))
             && (exists m :: Hit(it.name, m) in hits)
             && it.quantity == CalcQuantity(it.name, CountOf(hits, it.name))
             && it.meals == MealsOf(hits, it.name)
    {
      ItemsShape(t.order, t.usage, g.category);
    }
  }

  /** Every ingredient found in the week appears as an entry of some group. */
  lemma {:induction false} ShoppingListComplete(week: seq<DayMenu>, h: Hit)
    requires h in WeekHits(week)
    ensures exists g, it :: g in ShoppingList(week) && it in g.items && it.name == h.ingredient
  {
    var hits := WeekHits(week);
    var t := RecordAll(Tally([], map[]), hits);
    var table := ItemTable(t.order, t.usage);
    HitIsIngredient(week, h);
    UsedInTally(hits, h);
    NameHasCategory(h.ingredient);
    var cat := Lookup(InfoTable, h.ingredient).value.category;
    ItemsComplete(t.order, t.usage, cat);
    var it: Item :| it in table[cat] && it.name == h.ingredient;
    GroupedComplete(CategoryOrder, table, cat);
    GroupedShape(CategoryOrder, table);
    var g: CategoryGroup :| g in Grouped(CategoryOrder, table) && g.category == cat;
    assert it in g.items;
  }

  /** A use found in the week is of an ingredient name. */
  lemma {:induction false} HitIsIngredient(week: seq<DayMenu>, h: Hit)
    requires h in WeekHits(week)
    ensures h.ingredient in IngredientNames
  {
    WeekHitsFromSlots(week);
  }

  /** A used ingredient has an entry in the tally. */
  lemma {:induction false} UsedInTally(hits: seq<Hit>, h: Hit)
    requires h in hits
    ensures var t := RecordAll(Tally([], map[]), hits);
      h.ingredient in t.order && h.ingredient in t.usage
  {
    TallyMeaning(hits);
    assert Hit(h.ingredient, h.meal) in hits;
  }
}
