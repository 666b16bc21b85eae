/** The shopping-list extractor of `src/lib/ingredients.ts`: the ingredient tables, quantity
    rounding, alias normalisation of menu names, and longest-first keyword extraction. */
module Ingredients {
  import opened Options
  import opened Text
  import opened Sequences

  /** Category and display emoji of an ingredient. */
  datatype Info = Info(category: string, emoji: string)

  /** The unit of a serving; `Pieces` and `Sheets` are displayed as 개 and 장. */
  datatype Unit = Grams | Millilitres | Pieces | Sheets

  /** Amount of an ingredient used by one dish. */
  datatype Amount = Amount(amount: nat, unit: Unit)

  /** An object literal keyed by ingredient name, in its key order. */
  function Lookup<V>(table: seq<(string, V)>, key: string): (r: Option<V>)
    ensures r.None? <==> forall i :: 0 <= i < |table| ==> table[i].0 != key
    ensures r.Some? ==> exists i :: 0 <= i < |table| && table[i].0 == key && table[i].1 == r.value
  {
    if table == [] then None
    else if table[0].0 == key then Some(table[0].1)
    else
      var r := Lookup(table[1..], key);
      assert forall i :: 1 <= i < |table| ==> table[1..][i - 1] == table[i];
      r
  }

  /** `Object.keys(table)`. */
  function Keys<V>(table: seq<(string, V)>): (r: seq<string>)
    ensures |r| == |table| && forall i :: 0 <= i < |table| ==> r[i] == table[i].0
  {
    seq(|table|, i requires 0 <= i < |table| => table[i].0)
  }

  const InfoTable: seq<(string, Info)> := [
    ("소고기", Info("육류", "🥩")),
    ("닭고기", Info("육류", "🍗")),
    ("돼지고기", Info("육류", "🥓")),
    ("연어", Info("생선·해산물", "🐟")),
    ("대구", Info("생선·해산물", "🐟")),
    ("갈치", Info("생선·해산물", "🐟")),
    ("고등어", Info("생선·해산물", "🐟")),
    ("삼치", Info("생선·해산물", "🐟")),
    ("생선", Info("생선·해산물", "🐟")),
    ("참치", Info("생선·해산물", "🐟")),
    ("새우", Info("생선·해산물", "🦐")),
    ("어묵", Info("생선·해산물", "🍢")),
    ("당근", Info("채소", "🥕")),
    ("감자", Info("채소", "🥔")),
    ("고구마", Info("채소", "🍠")),
    ("브로콜리", Info("채소", "🥦")),
    ("시금치", Info("채소", "🥬")),
    ("애호박", Info("채소", "🥒")),
    ("단호박", Info("채소", "🎃")),
    ("양배추", Info("채소", "🥬")),
    ("청경채", Info("채소", "🥬")),
    ("배추", Info("채소", "🥬")),
    ("무", Info("채소", "🌿")),
    ("양파", Info("채소", "🧅")),
    ("완두콩", Info("채소", "🌱")),
    ("콜리플라워", Info("채소", "🥦")),
    ("콩나물", Info("채소", "🌱")),
    ("미역", Info("채소", "🌿")),
    ("옥수수", Info("채소", "🌽")),
    ("비타민채소", Info("채소", "🥬")),
    ("두부", Info("달걀·두부", "⬜")),
    ("계란", Info("달걀·두부", "🥚")),
    ("바나나", Info("과일", "🍌")),
    ("사과", Info("과일", "🍎")),
    ("배", Info("과일", "🍐")),
    ("귤", Info("과일", "🍊")),
    ("딸기", Info("과일", "🍓")),
    ("아보카도", Info("과일", "🥑")),
    ("치즈", Info("유제품", "🧀")),
    ("우유", Info("유제품", "🥛")),
    ("요거트", Info("유제품", "🥛")),
    ("쌀", Info("곡류", "🌾")),
    ("찹쌀", Info("곡류", "🌾")),
    ("오트밀", Info("곡류", "🌾"))
  ]

  const AmountTable: seq<(string, Amount)> := [
    ("소고기", Amount(50, Grams)),
    ("닭고기", Amount(50, Grams)),
    ("돼지고기", Amount(60, Grams)),
    ("연어", Amount(60, Grams)),
    ("대구", Amount(60, Grams)),
    ("갈치", Amount(70, Grams)),
    ("고등어", Amount(70, Grams)),
    ("삼치", Amount(70, Grams)),
    ("생선", Amount(70, Grams)),
    ("참치", Amount(50, Grams)),
    ("새우", Amount(50, Grams)),
    ("어묵", Amount(50, Grams)),
    ("당근", Amount(40, Grams)),
    ("감자", Amount(70, Grams)),
    ("고구마", Amount(70, Grams)),
    ("브로콜리", Amount(40, Grams)),
    ("시금치", Amount(30, Grams)),
    ("애호박", Amount(40, Grams)),
    ("단호박", Amount(60, Grams)),
    ("양배추", Amount(40, Grams)),
    ("청경채", Amount(30, Grams)),
    ("배추", Amount(50, Grams)),
    ("무", Amount(50, Grams)),
    ("양파", Amount(40, Grams)),
    ("완두콩", Amount(30, Grams)),
    ("콜리플라워", Amount(40, Grams)),
    ("콩나물", Amount(50, Grams)),
    ("미역", Amount(15, Grams)),
    ("옥수수", Amount(40, Grams)),
    ("비타민채소", Amount(30, Grams)),
    ("두부", Amount(60, Grams)),
    ("계란", Amount(1, Pieces)),
    ("바나나", Amount(1, Pieces)),
    ("사과", Amount(1, Pieces)),
    ("배", Amount(1, Pieces)),
    ("귤", Amount(2, Pieces)),
    ("딸기", Amount(5, Pieces)),
    ("아보카도", Amount(1, Pieces)),
    ("치즈", Amount(1, Sheets)),
    ("우유", Amount(200, Millilitres)),
    ("요거트", Amount(1, Pieces)),
    ("쌀", Amount(50, Grams)),
    ("찹쌀", Amount(50, Grams)),
    ("오트밀", Amount(30, Grams))
  ]

  /** The ingredient names, in the key order of the info table. */
  const IngredientNames: seq<string> := Keys(InfoTable)

  /** The amount table has exactly the keys of the info table, in the same order. */
  lemma {:induction false} AmountKeysMatch()
    ensures Keys(AmountTable) == IngredientNames
  {
    assert |AmountTable| == |InfoTable|;
    forall i | 0 <= i < |InfoTable| ensures AmountTable[i].0 == InfoTable[i].0 {
      if i < 23 {
        FrontAmountKey(i);
      } else {
        BackAmountKey(i);
      }
    }
  }

  lemma {:induction false} FrontAmountKey(i: int)
    requires 0 <= i < |InfoTable| && i < 23
    ensures i < |AmountTable| && AmountTable[i].0 == InfoTable[i].0
  {
  }

  lemma {:induction false} BackAmountKey(i: int)
    requires 23 <= i < |InfoTable|
    ensures i < |AmountTable| && AmountTable[i].0 == InfoTable[i].0
  {
  }

  /** A key of the info table has an amount. */
  lemma {:induction false} AmountForEveryIngredient(name: string)
    requires name in IngredientNames
    ensures Lookup(AmountTable, name).Some?
  {
    AmountKeysMatch();
    var i :| 0 <= i < |IngredientNames| && IngredientNames[i] == name;
    assert AmountTable[i].0 == name;
  }

  // ---------------------------------------------------------------------------
  // Quantities

  /** A displayed quantity: "약 Ng", "약 N kg" (kept as grams), "약 Nml", "약 N개" / "약 N장",
      or the empty text for an ingredient without an amount. */
  datatype Quantity =
    | NoQuantity
    | AboutGrams(grams: nat)
    | AboutKilograms(grams: nat)
    | AboutMillilitres(ml: nat)
    | AboutCount(n: nat, unit: Unit)

  /** `total` rounded up to a multiple of `step`. */
  predicate RoundedUp(r: nat, total: nat, step: nat)
    requires step > 0
  {
    r % step == 0 && total <= r < total + step
  }

  /** `Math.ceil(total / step) * step`, for the two steps the amounts use. */
  function RoundUp(total: nat, step: nat): (r: nat)
    requires step == 10 || step == 50
    ensures RoundedUp(r, total, step)
  {
    if step == 10 then (total + 9) / 10 * 10 else (total + 49) / 50 * 50
  }

  /** The quantity shown for `count` dishes each using amount `a`: grams rounded up to 10
      (shown in kg from 1000 g on), millilitres rounded up to 50, pieces and sheets as counted. */
  function Quantify(a: Amount, count: nat): (q: Quantity)
    ensures q != NoQuantity
    ensures a.unit == Grams ==>
      (q.AboutGrams? || q.AboutKilograms?) && RoundedUp(q.grams, a.amount * count, 10)
      && (q.AboutKilograms? <==> q.grams >= 1000)
    ensures a.unit == Millilitres ==> q.AboutMillilitres? && RoundedUp(q.ml, a.amount * count, 50)
    ensures a.unit in {Pieces, Sheets} ==> q == AboutCount(a.amount * count, a.unit)
  {
    var total := a.amount * count;
    match a.unit
    case Grams =>
      var rounded := RoundUp(total, 10);
      if rounded >= 1000 then AboutKilograms(rounded) else AboutGrams(rounded)
    case Millilitres => AboutMillilitres(RoundUp(total, 50))
    case _ => AboutCount(total, a.unit)
  }

  /** `calcQuantity`: no quantity for an ingredient missing from the amount table, otherwise
      the rounded total of `count` dishes. */
  function CalcQuantity(ingredient: string, count: nat): (q: Quantity)
    ensures q == NoQuantity <==> Lookup(AmountTable, ingredient).None?
    ensures forall a :: Lookup(AmountTable, ingredient) == Some(a) ==> q == Quantify(a, count)
  {
    match Lookup(AmountTable, ingredient)
    case None => NoQuantity
    case Some(a) => Quantify(a, count)
  }

  /** The order in which categories are listed. */
  const CategoryOrder: seq<string> := ["육류", "생선·해산물", "채소", "달걀·두부", "과일", "유제품", "곡류"]

  const CategoryEmojis: seq<(string, string)> := [
    ("육류", "🥩"), ("생선·해산물", "🐟"), ("채소", "🥦"), ("달걀·두부", "🥚"),
    ("과일", "🍎"), ("유제품", "🧀"), ("곡류", "🌾")
  ]

  /** `CATEGORY_EMOJIS[cat] || "🛒"`. */
  function CategoryEmoji(category: string): string {
    match Lookup(CategoryEmojis, category)
    case Some(e) => if e != "" then e else "🛒"
    case None => "🛒"
  }

  /** Every ingredient's category is one of the listed categories, each of which has its own
      emoji, so the fallback emoji is never shown. */
  lemma {:induction false} CategoriesListed(i: int)
    requires 0 <= i < |InfoTable|
    ensures InfoTable[i].1.category in CategoryOrder
    ensures Keys(CategoryEmojis) == CategoryOrder
    ensures forall c :: c in CategoryOrder ==> CategoryEmoji(c) != "🛒"
  {
    InfoCategoryListed(i);
    EmojiKeys();
    EmojisDefined();
  }

  lemma {:induction false} InfoCategoryListed(i: int)
    requires 0 <= i < |InfoTable|
    ensures InfoTable[i].1.category in CategoryOrder
  {
  }

  lemma {:induction false} EmojiKeys()
    ensures Keys(CategoryEmojis) == CategoryOrder
  {
    forall k | 0 <= k < |CategoryOrder| ensures CategoryEmojis[k].0 == CategoryOrder[k] { }
  }

  lemma {:induction false} EmojisDefined()
    ensures forall c :: c in CategoryOrder ==> CategoryEmoji(c) != "🛒"
  {
    EmojiKeys();
    EmojiValuesSet();
    forall c | c in CategoryOrder ensures CategoryEmoji(c) != "🛒" {
      var k :| 0 <= k < |CategoryOrder| && CategoryOrder[k] == c;
      assert CategoryEmojis[k].0 == c;
    }
  }

  lemma {:induction false} EmojiValuesSet()
    ensures forall j :: 0 <= j < |CategoryEmojis| ==> CategoryEmojis[j].1 != "" && CategoryEmojis[j].1 != "🛒"
  {
  }

  // ---------------------------------------------------------------------------
  // Menu-name normalisation

  /** `normalizeMealName`: seven global rewrites applied in order. 무른 is masked so that 무 is
      not read as an ingredient; the others map aliases onto ingredient names. */
  function NormalizeMealName(name: string): string {
    var s4 := AliasesRemoved(name);
    var s5 := ReplaceAll(s4, Pattern(["비타민"], {'채'}), "비타민채소");
    var s6 := ReplaceAll(s5, FishDishes, "생선요리");
    ReplaceAll(s6, Literal("함박스테이크"), "소고기요리")
  }

  /** After normalisation no 무른, 닭볶음탕, 제육 or 달걀 is left, and every 비타민 reads
      비타민채. */
  lemma {:induction false} NormalizeRewritesAliases(name: string)
    ensures var r := NormalizeMealName(name);
      !Contains(r, "무른") && !Contains(r, "닭볶음탕") && !Contains(r, "제육") && !Contains(r, "달걀")
      && AlwaysFollowedBy(r, "비타민", '채')
  {
    var s4 := AliasesRemoved(name);
    var s5 := ReplaceAll(s4, Pattern(["비타민"], {'채'}), "비타민채소");
    var s6 := ReplaceAll(s5, FishDishes, "생선요리");
    ReplacementsAvoidAliases();
    AliasesStayGone(s4, Pattern(["비타민"], {'채'}), "비타민채소");
    AliasesStayGone(s5, FishDishes, "생선요리");
    AliasesStayGone(s6, Literal("함박스테이크"), "소고기요리");
    VitaminCompleted(s4);
  }

  /** The last three replacements share no character with the removed aliases. */
  lemma {:induction false} ReplacementsAvoidAliases()
    ensures Disjoint("비타민채소", "무른닭볶음탕제육달걀")
    ensures Disjoint("생선요리", "무른닭볶음탕제육달걀")
    ensures Disjoint("소고기요리", "무른닭볶음탕제육달걀")
  {
  }

  /** The fish-dish alternatives of the sixth rewrite. */
  const FishDishes: Pattern := Pattern(["생선까스", "생선전", "생선구이", "생선조림"], {})

  /** The first four rewrites. */
  function AliasesRemoved(name: string): (s4: string)
    ensures !Contains(s4, "무른") && !Contains(s4, "닭볶음탕") && !Contains(s4, "제육") && !Contains(s4, "달걀")
  {
    var s1 := ReplaceAll(name, Literal("무른"), "⬜⬜");
    var s2 := ReplaceAll(s1, Literal("닭볶음탕"), "닭고기볶음");
    var s3 := ReplaceAll(s2, Literal("제육"), "돼지고기");
    var s4 := ReplaceAll(s3, Literal("달걀"), "계란");
    MaskMureun(name);
    RewriteDakbokkeumtang(s1);
    RewriteJeyuk(s2);
    RewriteDalgyal(s3);
    s4
  }

  /** The first rewrite masks every 무른. */
  lemma {:induction false} MaskMureun(name: string)
    ensures !Contains(ReplaceAll(name, Literal("무른"), "⬜⬜"), "무른")
  {
    assert "⬜⬜"[0] !in "무른"[1..];
    ReplaceRemoves(name, "무른", "⬜⬜");
  }

  /** The second rewrite removes every 닭볶음탕 and brings back no 무른. */
  lemma {:induction false} RewriteDakbokkeumtang(s1: string)
    requires !Contains(s1, "무른")
    ensures var s2 := ReplaceAll(s1, Literal("닭볶음탕"), "닭고기볶음");
      !Contains(s2, "무른") && !Contains(s2, "닭볶음탕")
  {
    assert Disjoint("닭고기볶음", "무른");
    ReplaceRemoves(s1, "닭볶음탕", "닭고기볶음");
    NoNewOccurrence(s1, Literal("닭볶음탕"), "닭고기볶음", "무른");
  }

  /** The third rewrite removes every 제육 and brings back neither earlier alias. */
  lemma {:induction false} RewriteJeyuk(s2: string)
    requires !Contains(s2, "무른") && !Contains(s2, "닭볶음탕")
    ensures var s3 := ReplaceAll(s2, Literal("제육"), "돼지고기");
      !Contains(s3, "무른") && !Contains(s3, "닭볶음탕") && !Contains(s3, "제육")
  {
    assert Disjoint("돼지고기", "무른") && Disjoint("돼지고기", "닭볶음탕");
    ReplaceRemoves(s2, "제육", "돼지고기");
    NoNewOccurrence(s2, Literal("제육"), "돼지고기", "무른");
    NoNewOccurrence(s2, Literal("제육"), "돼지고기", "닭볶음탕");
  }

  /** The fourth rewrite removes every 달걀 and brings back none of the earlier aliases. */
  lemma {:induction false} RewriteDalgyal(s3: string)
    requires !Contains(s3, "무른") && !Contains(s3, "닭볶음탕") && !Contains(s3, "제육")
    ensures var s4 := ReplaceAll(s3, Literal("달걀"), "계란");
      !Contains(s4, "무른") && !Contains(s4, "닭볶음탕") && !Contains(s4, "제육") && !Contains(s4, "달걀")
  {
    assert Disjoint("계란", "무른") && Disjoint("계란", "닭볶음탕") && Disjoint("계란", "제육");
    ReplaceRemoves(s3, "달걀", "계란");
    NoNewOccurrence(s3, Literal("달걀"), "계란", "무른");
    NoNewOccurrence(s3, Literal("달걀"), "계란", "닭볶음탕");
    NoNewOccurrence(s3, Literal("달걀"), "계란", "제육");
  }

  /** The last three rewrites make and keep every 비타민 followed by 채. */
  lemma {:induction false} VitaminCompleted(s4: string)
    ensures var s5 := ReplaceAll(s4, Pattern(["비타민"], {'채'}), "비타민채소");
      var s6 := ReplaceAll(s5, FishDishes, "생선요리");
      AlwaysFollowedBy(ReplaceAll(s6, Literal("함박스테이크"), "소고기요리"), "비타민", '채')
  {
    var s5 := ReplaceAll(s4, Pattern(["비타민"], {'채'}), "비타민채소");
    var s6 := ReplaceAll(s5, FishDishes, "생선요리");
    VitaminRewrite(s4);
    FishKeepsVitamin(s5);
    SteakKeepsVitamin(s6);
  }

  /** The 비타민 rewrite leaves every 비타민 followed by 채. */
  lemma {:induction false} VitaminRewrite(s4: string)
    ensures AlwaysFollowedBy(ReplaceAll(s4, Pattern(["비타민"], {'채'}), "비타민채소"), "비타민", '채')
  {
    var rep := "비타민채소";
    assert rep[..3] == "비타민" && rep[3] == '채' && rep[1..] == "타민채소";
    ReplaceMakesFollowed(s4, "비타민", '채', rep);
  }

  /** The fish-dish rewrite keeps every 비타민 followed by 채. */
  lemma {:induction false} FishKeepsVitamin(s5: string)
    requires AlwaysFollowedBy(s5, "비타민", '채')
    ensures AlwaysFollowedBy(ReplaceAll(s5, FishDishes, "생선요리"), "비타민", '채')
  {
    assert "비타민"[1..] + ['채'] == "타민채";
    assert forall a :: a in FishDishes.alternatives ==> a[0] == '생';
    ReplaceKeepsFollowed(s5, FishDishes, "생선요리", "비타민", '채');
  }

  /** The 함박스테이크 rewrite keeps every 비타민 followed by 채. */
  lemma {:induction false} SteakKeepsVitamin(s6: string)
    requires AlwaysFollowedBy(s6, "비타민", '채')
    ensures AlwaysFollowedBy(ReplaceAll(s6, Literal("함박스테이크"), "소고기요리"), "비타민", '채')
  {
    assert "비타민"[1..] + ['채'] == "타민채";
    ReplaceKeepsFollowed(s6, Literal("함박스테이크"), "소고기요리", "비타민", '채');
  }

  /** The four removed aliases stay absent under a rewrite into text without their letters. */
  lemma {:induction false} AliasesStayGone(s: string, p: Pattern, rep: string)
    requires rep != [] && Disjoint(rep, "무른닭볶음탕제육달걀")
    requires !Contains(s, "무른") && !Contains(s, "닭볶음탕") && !Contains(s, "제육") && !Contains(s, "달걀")
    ensures var r := ReplaceAll(s, p, rep);
      !Contains(r, "무른") && !Contains(r, "닭볶음탕") && !Contains(r, "제육") && !Contains(r, "달걀")
  {
    NoNewOccurrence(s, p, rep, "무른");
    NoNewOccurrence(s, p, rep, "닭볶음탕");
    NoNewOccurrence(s, p, rep, "제육");
    NoNewOccurrence(s, p, rep, "달걀");
  }

  // ---------------------------------------------------------------------------
  // Keyword extraction

  /** The mask character U+2B1C. */
  const MaskChar: char := '⬜'

  /** `"⬜".repeat(n)`. */
  function Mask(n: nat): (m: string)
    ensures |m| == n && forall i :: 0 <= i < n ==> m[i] == MaskChar
  {
    if n == 0 then [] else Mask(n - 1) + [MaskChar]
  }

  /** The sort key of the comparator `(a, b) => b.length - a.length`. */
  function NegLength(s: string): int {
    -|s|
  }

  /** The keywords in the order they are tried: longest first, equal lengths in key order. */
  const SortedKeywords: seq<string> := SortByKey(IngredientNames, NegLength, -5, -1)

  /** A keyword is non-empty, at most five characters long and holds no mask character. */
  predicate Keyword(kw: string) {
    1 <= |kw| <= 5 && MaskChar !in kw
  }

  lemma {:induction false} IngredientNamesAreKeywords()
    ensures forall kw :: kw in IngredientNames ==> Keyword(kw)
  {
    forall i | 0 <= i < |InfoTable| ensures Keyword(InfoTable[i].0) {
      if i < 23 {
        FrontNameIsKeyword(i);
      } else {
        BackNameIsKeyword(i);
      }
    }
  }

  lemma {:induction false} FrontNameIsKeyword(i: int)
    requires 0 <= i < |InfoTable| && i < 23
    ensures Keyword(InfoTable[i].0)
  {
  }

  lemma {:induction false} BackNameIsKeyword(i: int)
    requires 23 <= i < |InfoTable|
    ensures Keyword(InfoTable[i].0)
  {
  }

  /** The sorted keywords are the ingredient names, reordered by non-increasing length. */
  lemma {:induction false} SortedKeywordsFacts()
    ensures multiset(SortedKeywords) == multiset(IngredientNames)
    ensures forall kw :: kw in SortedKeywords <==> kw in IngredientNames
    ensures forall kw :: kw in SortedKeywords ==> Keyword(kw)
    ensures forall i, j :: 0 <= i < j < |SortedKeywords| ==> |SortedKeywords[i]| >= |SortedKeywords[j]|
  {
    IngredientNamesAreKeywords();
    SortByKeyPermutes(IngredientNames, NegLength, -5, -1);
    SortByKeySorted(IngredientNames, NegLength, -5, -1);
    forall kw ensures kw in SortedKeywords <==> kw in IngredientNames {
      assert kw in SortedKeywords <==> kw in multiset(SortedKeywords);
    }
  }

  /** The state of the keyword loop: the found set, in insertion order, and the masked text. */
  datatype ScanState = ScanState(found: seq<string>, text: string)

  /** `set.add(x)` on a set kept in insertion order. */
  function AddNew(s: seq<string>, x: string): (r: seq<string>)
    ensures x in r && forall y :: y in r <==> y in s || y == x
    ensures Distinct(s) ==> Distinct(r)
    ensures |s| <= |r| && r[..|s|] == s
  {
    if x in s then s else s + [x]
  }

  /** One turn of the keyword loop. */
  function Step(st: ScanState, kw: string): ScanState {
    if Contains(st.text, kw) then
      ScanState(AddNew(st.found, kw), ReplaceAll(st.text, Literal(kw), Mask(|kw|)))
    else st
  }

  /** The keyword loop over `kws`. */
  function Scan(st: ScanState, kws: seq<string>): ScanState
    decreases |kws|
  {
    if kws == [] then st else Scan(Step(st, kws[0]), kws[1..])
  }

  /** Scanning in two pieces. */
  lemma {:induction false} ScanAppend(st: ScanState, a: seq<string>, b: seq<string>)
    ensures Scan(st, a + b) == Scan(Scan(st, a), b)
    decreases |a|
  {
    if a == [] {
      assert a + b == b;
    } else {
      assert (a + b)[0] == a[0] && (a + b)[1..] == a[1..] + b;
      ScanAppend(Step(st, a[0]), a[1..], b);
    }
  }

  /** The loop only adds keywords it tries to the found set, never twice, and keeps the
      length of the text. */
  lemma {:induction false} ScanKeeps(st: ScanState, kws: seq<string>)
    requires Distinct(st.found)
    ensures var r := Scan(st, kws);
      Distinct(r.found) && |r.text| == |st.text|
      && |st.found| <= |r.found| && r.found[..|st.found|] == st.found
      && forall x :: x in r.found ==> x in st.found || x in kws
    decreases |kws|
  {
    if kws != [] {
      var kw := kws[0];
      ReplaceKeepsLength(st.text, kw, Mask(|kw|));
      ScanKeeps(Step(st, kw), kws[1..]);
      assert forall x :: x in kws[1..] ==> x in kws;
      var r := Scan(st, kws);
      var mid := Step(st, kw).found;
      assert r.found[..|st.found|] == r.found[..|mid|][..|st.found|];
    }
  }

  /** Masking creates no occurrence of a keyword: every keyword found occurs in the text the
      loop started from. */
  lemma {:induction false} ScanSound(st: ScanState, kws: seq<string>, x: string)
    requires Keyword(x) && forall kw :: kw in kws ==> Keyword(kw)
    requires x in Scan(st, kws).found
    ensures x in st.found || Contains(st.text, x)
    decreases |kws|
  {
    if kws != [] {
      var kw := kws[0];
      var next := Step(st, kw);
      assert forall y :: y in kws[1..] ==> y in kws;
      ScanSound(next, kws[1..], x);
      if next != st && x !in next.found {
        assert kw in kws;
        MaskDisjoint(|kw|, x);
        if !Contains(st.text, x) {
          NoNewOccurrence(st.text, Literal(kw), Mask(|kw|), x);
        }
      }
    }
  }

  /** A keyword absent from the text stays absent while other keywords are masked. */
  lemma {:induction false} ScanCreatesNone(st: ScanState, kws: seq<string>, x: string)
    requires Keyword(x) && forall kw :: kw in kws ==> Keyword(kw)
    requires !Contains(st.text, x)
    ensures !Contains(Scan(st, kws).text, x)
    decreases |kws|
  {
    if kws != [] {
      var kw := kws[0];
      assert kw in kws;
      MaskDisjoint(|kw|, x);
      if Contains(st.text, kw) {
        NoNewOccurrence(st.text, Literal(kw), Mask(|kw|), x);
      }
      assert forall y :: y in kws[1..] ==> y in kws;
      ScanCreatesNone(Step(st, kw), kws[1..], x);
    }
  }

  /** After the loop no keyword it tried occurs in the text: each match was masked whole. */
  lemma {:induction false} ScanMasksAll(st: ScanState, kws: seq<string>)
    requires forall kw :: kw in kws ==> Keyword(kw)
    ensures forall kw :: kw in kws ==> !Contains(Scan(st, kws).text, kw)
    decreases |kws|
  {
    if kws != [] {
      var kw := kws[0];
      var next := Step(st, kw);
      assert forall y :: y in kws[1..] ==> y in kws;
      ScanMasksAll(next, kws[1..]);
      if Contains(st.text, kw) {
        ReplaceRemoves(st.text, kw, Mask(|kw|));
      }
      ScanCreatesNone(next, kws[1..], kw);
      assert forall y :: y in kws ==> y == kw || y in kws[1..];
    }
  }

  /** A loop over keywords none of which occurs changes nothing. */
  lemma {:induction false} ScanUntouched(st: ScanState, kws: seq<string>)
    requires forall i :: 0 <= i < |kws| ==> !Contains(st.text, kws[i])
    ensures Scan(st, kws) == st
    decreases |kws|
  {
    if kws != [] {
      ScanUntouched(st, kws[1..]);
    }
  }

  /** A mask holds no keyword. */
  lemma {:induction false} MaskHoldsNone(n: nat, kw: string)
    requires Keyword(kw)
    ensures !Contains(Mask(n), kw)
  {
    assert kw[0] in kw;
    NotContainsHead(Mask(n), kw);
  }

  /** A mask shares no character with a keyword. */
  lemma {:induction false} MaskDisjoint(n: nat, kw: string)
    requires Keyword(kw)
    ensures Disjoint(Mask(n), kw)
  {
  }

  /** A keyword at least as long as `k` and different from it does not occur in `k`. */
  lemma {:induction false} NotInside(k: string, kw: string)
    requires |kw| >= |k| && kw != k
    ensures !Contains(k, kw)
  {
    ContainsIff(k, kw);
  }

  /** A text that is exactly one keyword `k` yields `k` alone when the keywords tried before
      its first occurrence in the list are no shorter: the shorter keywords inside `k` are
      masked before they are tried. */
  lemma {:induction false} ScanAlone(k: string, kws: seq<string>, j: nat)
    requires forall kw :: kw in kws ==> Keyword(kw)
    requires j < |kws| && kws[j] == k
    requires forall i :: 0 <= i < j ==> kws[i] != k && |kws[i]| >= |k|
    ensures Scan(ScanState([], k), kws).found == [k]
  {
    var st := ScanState([], k);
    assert kws == kws[..j] + kws[j..];
    ScanAppend(st, kws[..j], kws[j..]);
    forall i | 0 <= i < j ensures !Contains(k, kws[..j][i]) {
      NotInside(k, kws[i]);
    }
    ScanUntouched(st, kws[..j]);
    assert k in kws;
    ContainsAt(k, k, 0);
    var m := Mask(|k|);
    assert ReplaceAll(k, Literal(k), m) == m + ReplaceAll(k[|k|..], Literal(k), m);
    assert Step(st, k) == ScanState([k], m);
    var rest := kws[j + 1..];
    forall i | 0 <= i < |rest| ensures !Contains(m, rest[i]) {
      assert rest[i] in kws;
      MaskHoldsNone(|k|, rest[i]);
    }
    ScanUntouched(ScanState([k], m), rest);
  }

  /** An ingredient name on its own is extracted as itself alone: 배추 does not also yield 배,
      nor 찹쌀 쌀. */
  lemma {:induction false} KeywordAlone(k: string)
    requires k in IngredientNames
    ensures Scan(ScanState([], k), SortedKeywords).found == [k]
  {
    SortedKeywordsFacts();
    var kws := SortedKeywords;
    var j := FirstIndex(kws, k);
    forall i | 0 <= i < j ensures kws[i] != k && |kws[i]| >= |k| {
      assert kws[i] in kws[..j];
    }
    ScanAlone(k, kws, j);
  }

  /** The first index of `x` in `s`. */
  lemma {:induction false} FirstIndex(s: seq<string>, x: string) returns (j: nat)
    requires x in s
    ensures j < |s| && s[j] == x && x !in s[..j]
  {
    if s[0] == x {
      j := 0;
    } else {
      var k := FirstIndex(s[1..], x);
      j := k + 1;
      assert s[..j] == [s[0]] + s[1..][..k];
    }
  }

  /** The dishes that are made with rice: porridge, purée, rice, noodles and udon. */
  predicate RiceDish(mealName: string) {
    Contains(mealName, "죽") || Contains(mealName, "미음") || Contains(mealName, "밥")
    || Contains(mealName, "국수") || Contains(mealName, "우동")
  }

  /** What `extractIngredients` returns: the keywords found in the normalised name, then 쌀
      for a rice dish that holds neither 찹쌀 nor 오트밀. */
  function IngredientsOf(mealName: string): seq<string> {
    var found := Scan(ScanState([], NormalizeMealName(mealName)), SortedKeywords).found;
    if RiceDish(mealName) && "찹쌀" !in found && "오트밀" !in found then AddNew(found, "쌀") else found
  }

  /** `extractIngredients`: try each keyword, longest first; on a match record it and mask
      all its occurrences with as many mask characters as it has; then apply the rice rule. */
  method ExtractIngredients(mealName: string) returns (found: seq<string>)
    ensures found == IngredientsOf(mealName)
    ensures Distinct(found) && forall x :: x in found ==> x in IngredientNames
  {
    SortedKeywordsFacts();
    found := ScanKeywords(NormalizeMealName(mealName), SortedKeywords);
    found := AddRice(mealName, found);
    ExtractedAreIngredients(mealName);
  }

  /** The keyword loop of `extractIngredients` over `keywords`, from the normalised name
      `start`. */
  method ScanKeywords(start: string, keywords: seq<string>) returns (found: seq<string>)
    requires forall kw :: kw in keywords ==> Keyword(kw)
    ensures found == Scan(ScanState([], start), keywords).found
  {
    var text := start;
    found := [];
    var k := 0;
    while k < |keywords|
      invariant 0 <= k <= |keywords|
      invariant Scan(ScanState(found, text), keywords[k..]) == Scan(ScanState([], start), keywords)
    {
      var keyword := keywords[k];
      assert keywords[k..] == [keyword] + keywords[k + 1..];
      found, text := TryKeyword(found, text, keyword);
      k := k + 1;
    }
  }

  /** The rice rule of `extractIngredients`: a rice dish holding neither 찹쌀 nor 오트밀 gets 쌀. */
  method AddRice(mealName: string, found: seq<string>) returns (r: seq<string>)
    ensures r == if RiceDish(mealName) && "찹쌀" !in found && "오트밀" !in found then AddNew(found, "쌀") else found
  {
    r := found;
    if RiceDish(mealName) && "찹쌀" !in found && "오트밀" !in found {
      if "쌀" !in found {
        r := found + ["쌀"];
      }
    }
  }

  /** One round of the keyword loop: when the keyword occurs, record it and mask every
      occurrence by splitting on it and joining with the mask. */
  method TryKeyword(found: seq<string>, text: string, keyword: string) returns (found': seq<string>, text': string)
    requires Keyword(keyword)
    ensures ScanState(found', text') == Step(ScanState(found, text), keyword)
  {
    found', text' := found, text;
    if Contains(text, keyword) {
      if keyword !in found {
        found' := found + [keyword];
      }
      SplitJoinIsReplace(text, keyword, Mask(|keyword|));
      text' := Join(SplitOn(text, keyword), Mask(|keyword|));
    }
  }

  /** The result is duplicate-free, made of ingredient names, and apart from the rice rule's
      쌀 each ingredient occurs in the normalised name. */
  lemma {:induction false} ExtractedAreIngredients(mealName: string)
    ensures var r := IngredientsOf(mealName);
      Distinct(r) && (forall x :: x in r ==> x in IngredientNames)
      && forall x :: x in r ==> Contains(NormalizeMealName(mealName), x) || (x == "쌀" && RiceDish(mealName))
  {
    ScanFindsIngredients(mealName);
    assert "쌀" == InfoTable[41].0;
  }

  /** The keyword loop records each ingredient name at most once, and only those that occur
      in the normalised name. */
  lemma {:induction false} ScanFindsIngredients(mealName: string)
    ensures var found := Scan(ScanState([], NormalizeMealName(mealName)), SortedKeywords).found;
      Distinct(found) && (forall x :: x in found ==> x in IngredientNames)
      && forall x :: x in found ==> Contains(NormalizeMealName(mealName), x)
  {
    SortedKeywordsFacts();
    var st := ScanState([], NormalizeMealName(mealName));
    ScanKeeps(st, SortedKeywords);
    var found := Scan(st, SortedKeywords).found;
    forall x | x in found ensures Contains(st.text, x) {
      ScanSound(st, SortedKeywords, x);
    }
  }

  /** The rice rule: a rice dish without 찹쌀 or 오트밀 among its ingredients lists 쌀, and
      one with either lists 쌀 only when the name itself holds 쌀 as a keyword. */
  lemma {:induction false} RiceRule(mealName: string)
    ensures var r := IngredientsOf(mealName);
      (RiceDish(mealName) && "찹쌀" !in r && "오트밀" !in r ==> "쌀" in r)
      && ("쌀" in r && !RiceDish(mealName) ==> Contains(NormalizeMealName(mealName), "쌀"))
  {
    ExtractedAreIngredients(mealName);
  }

  /** After the keyword loop, no keyword occurs in the masked text, and the text is as long
      as the normalised name. */
  lemma {:induction false} ScanLeavesNoKeyword(mealName: string)
    ensures var st := Scan(ScanState([], NormalizeMealName(mealName)), SortedKeywords);
      |st.text| == |NormalizeMealName(mealName)|
      && forall kw :: kw in IngredientNames ==> !Contains(st.text, kw)
  {
    SortedKeywordsFacts();
    ScanKeeps(ScanState([], NormalizeMealName(mealName)), SortedKeywords);
    ScanMasksAll(ScanState([], NormalizeMealName(mealName)), SortedKeywords);
  }

  /** An ingredient name on its own yields itself alone, though it may hold shorter
      ingredient names: 배추 (cabbage) yields neither 배 (pear) nor anything else, 찹쌀
      (glutinous rice) not 쌀 (rice). */
  lemma {:induction false} NameAloneYieldsItself(name: string)
    requires name in IngredientNames
    ensures IngredientsOf(name) == [name]
  {
    NamesUnrewritten(name);
    NormalizedUnchanged(name);
    KeywordAlone(name);
  }

  /** The two pairs the rule above is about are all ingredient names. */
  lemma {:induction false} NestedNames()
    ensures "배추" in IngredientNames && "배" in IngredientNames
    ensures "찹쌀" in IngredientNames && "쌀" in IngredientNames
  {
    assert IngredientNames[21] == InfoTable[21].0 == "배추";
    assert IngredientNames[34] == InfoTable[34].0 == "배";
    assert IngredientNames[42] == InfoTable[42].0 == "찹쌀";
    assert IngredientNames[41] == InfoTable[41].0 == "쌀";
  }

  /** No rewrite of `normalizeMealName` finds anything to replace in `name`. */
  predicate Unrewritten(name: string) {
    !Contains(name, "무른") && !Contains(name, "닭볶음탕") && !Contains(name, "제육")
    && !Contains(name, "달걀") && AlwaysFollowedBy(name, "비타민", '채')
    && (forall a :: a in FishDishes.alternatives ==> !Contains(name, a))
    && !Contains(name, "함박스테이크")
  }

  /** A name in which no rewrite finds anything is not changed by normalisation. */
  lemma {:induction false} NormalizedUnchanged(name: string)
    requires Unrewritten(name)
    ensures NormalizeMealName(name) == name
  {
    ReplaceAbsent(name, Literal("무른"), "⬜⬜");
    ReplaceAbsent(name, Literal("닭볶음탕"), "닭고기볶음");
    ReplaceAbsent(name, Literal("제육"), "돼지고기");
    ReplaceAbsent(name, Literal("달걀"), "계란");
    ReplaceFollowed(name, "비타민", '채', "비타민채소");
    ReplaceAbsent(name, FishDishes, "생선요리");
    ReplaceAbsent(name, Literal("함박스테이크"), "소고기요리");
  }

  /** The texts the rewrites and the rice rule look for. */
  const Probes: seq<string> := ["무른", "닭볶음탕", "제육", "달걀", "비타민", "생선까스", "생선전",
    "생선구이", "생선조림", "함박스테이크", "죽", "미음", "밥", "국수", "우동"]

  /** `t` cannot occur in `name`: its first letter is missing, or it is at least as long as
      `name` and different from it. */
  predicate Clear(name: string, t: string) {
    t != [] && (t[0] !in name || (|t| >= |name| && t != name))
  }

  lemma {:induction false} ClearAbsent(name: string, t: string)
    requires Clear(name, t)
    ensures !Contains(name, t)
  {
    if t[0] !in name {
      NotContainsHead(name, t);
    } else {
      NotInside(name, t);
    }
  }

  /** A name clear of every probe holds none of them. */
  lemma {:induction false} ProbesAbsent(name: string)
    requires forall t :: t in Probes ==> Clear(name, t)
    ensures forall t :: t in Probes ==> !Contains(name, t)
  {
    forall t | t in Probes ensures !Contains(name, t) {
      ClearAbsent(name, t);
    }
  }

  /** A name that holds no probe except 비타민, and that only as 비타민채, is left alone by
      the rewrites and is no rice dish. */
  lemma {:induction false} AbsentProbesUnrewritten(name: string)
    requires forall t :: t in Probes && t != "비타민" ==> !Contains(name, t)
    requires AlwaysFollowedBy(name, "비타민", '채')
    ensures Unrewritten(name) && !RiceDish(name)
  {
    AbsentRewriteProbes(name);
    AbsentRiceProbes(name);
  }

  lemma {:induction false} AbsentRewriteProbes(name: string)
    requires forall t :: t in Probes && t != "비타민" ==> !Contains(name, t)
    requires AlwaysFollowedBy(name, "비타민", '채')
    ensures Unrewritten(name)
  {
    assert Probes[0] == "무른" && Probes[1] == "닭볶음탕" && Probes[2] == "제육" && Probes[3] == "달걀";
    AbsentDishProbes(name);
  }

  lemma {:induction false} AbsentDishProbes(name: string)
    requires forall t :: t in Probes && t != "비타민" ==> !Contains(name, t)
    ensures forall a :: a in FishDishes.alternatives ==> !Contains(name, a)
    ensures !Contains(name, "함박스테이크")
  {
    assert FishDishes.alternatives == [Probes[5], Probes[6], Probes[7], Probes[8]];
    assert Probes[9] == "함박스테이크";
  }

  lemma {:induction false} AbsentRiceProbes(name: string)
    requires forall t :: t in Probes && t != "비타민" ==> !Contains(name, t)
    ensures !RiceDish(name)
  {
    assert Probes[10] == "죽" && Probes[11] == "미음" && Probes[12] == "밥";
    assert Probes[13] == "국수" && Probes[14] == "우동";
  }

  /** 비타민채소 holds 비타민, always followed by 채, and no other probe. */
  lemma {:induction false} VitaminNameUnrewritten()
    ensures Unrewritten("비타민채소") && !RiceDish("비타민채소")
  {
    var w, c := "비타민", '채';
    assert "소"[1..] == [] && AlwaysFollowedBy([], w, c);
    assert "채소"[1..] == "소" && AlwaysFollowedBy("소", w, c);
    assert "민채소"[1..] == "채소" && AlwaysFollowedBy("채소", w, c);
    assert "민채소"[..3][0] != w[0];
    assert "타민채소"[1..] == "민채소" && AlwaysFollowedBy("민채소", w, c);
    assert "타민채소"[..3][0] != w[0];
    assert "비타민채소"[1..] == "타민채소" && AlwaysFollowedBy("타민채소", w, c);
    assert "비타민채소"[..3] == w && "비타민채소"[3] == c;
    assert AlwaysFollowedBy("비타민채소", w, c);
    forall t | t in Probes && t != w ensures !Contains("비타민채소", t) {
      ClearAbsent("비타민채소", t);
    }
    AbsentProbesUnrewritten("비타민채소");
  }

  /** Every ingredient name is left alone by the rewrites and is no rice dish. */
  lemma {:induction false} NamesUnrewritten(name: string)
    requires name in IngredientNames
    ensures Unrewritten(name) && !RiceDish(name)
  {
    if name == "비타민채소" {
      VitaminNameUnrewritten();
    } else {
      var i :| 0 <= i < |InfoTable| && InfoTable[i].0 == name;
      if i < 6 {
        NamesClear0(i);
      } else if i < 12 {
        NamesClear1(i);
      } else if i < 18 {
        NamesClear2(i);
      } else if i < 24 {
        NamesClear3(i);
      } else if i < 30 {
        NamesClear4(i);
      } else if i < 36 {
        NamesClear5(i);
      } else if i < 42 {
        NamesClear6(i);
      } else {
        NamesClear7(i);
      }
      ProbesAbsent(name);
      AbsentFollowed(name, "비타민", '채');
      AbsentProbesUnrewritten(name);
    }
  }

  lemma {:induction false} NamesClear0(i: int)
    requires 0 <= i < 6
    ensures forall t :: t in Probes ==> Clear(InfoTable[i].0, t)
  {
  }

  lemma {:induction false} NamesClear1(i: int)
    requires 6 <= i < 12
    ensures forall t :: t in Probes ==> Clear(InfoTable[i].0, t)
  {
  }

  lemma {:induction false} NamesClear2(i: int)
    requires 12 <= i < 18
    ensures forall t :: t in Probes ==> Clear(InfoTable[i].0, t)
  {
  }

  lemma {:induction false} NamesClear3(i: int)
    requires 18 <= i < 24
    ensures forall t :: t in Probes ==> Clear(InfoTable[i].0, t)
  {
  }

  lemma {:induction false} NamesClear4(i: int)
    requires 24 <= i < 30 && InfoTable[i].0 != "비타민채소"
    ensures forall t :: t in Probes ==> Clear(InfoTable[i].0, t)
  {
  }

  lemma {:induction false} NamesClear5(i: int)
    requires 30 <= i < 36
    ensures forall t :: t in Probes ==> Clear(InfoTable[i].0, t)
  {
  }

  lemma {:induction false} NamesClear6(i: int)
    requires 36 <= i < 42
    ensures forall t :: t in Probes ==> Clear(InfoTable[i].0, t)
  {
  }

  lemma {:induction false} NamesClear7(i: int)
    requires 42 <= i < |InfoTable|
    ensures forall t :: t in Probes ==> Clear(InfoTable[i].0, t)
  {
  }
}
