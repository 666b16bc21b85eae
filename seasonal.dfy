/** `src/lib/seasonal.ts`: the ingredients in season each month and the seasonal ingredients
    a menu name mentions. The current month is a parameter instead of being read from the
    clock. */
module Seasonal {
  import opened Options
  import opened Text
  import opened Sequences

  /** `seasonalMap`: month number to the ingredients in season, in the table's order. */
  const SeasonalMap: map<int, seq<string>> := map[
    1 := ["무", "배추", "시금치", "귤", "대구", "딸기"],
    2 := ["시금치", "딸기", "무", "배추", "대구"],
    3 := ["시금치", "양배추", "딸기", "미나리", "청경채"],
    4 := ["시금치", "양배추", "완두콩", "딸기", "청경채"],
    5 := ["감자", "양배추", "완두콩", "애호박", "양파"],
    6 := ["감자", "애호박", "옥수수", "양파", "브로콜리"],
    7 := ["옥수수", "감자", "애호박", "고구마", "브로콜리"],
    8 := ["옥수수", "고구마", "배", "단호박", "애호박"],
    9 := ["고구마", "배", "사과", "단호박", "연어"],
    10 := ["사과", "배", "단호박", "고구마", "무", "갈치"],
    11 := ["사과", "배추", "무", "시금치", "귤", "갈치"],
    12 := ["배추", "무", "시금치", "귤", "대구"]
  ]

  /** What a menu shares with the season. */
  datatype SeasonalMatch = SeasonalMatch(ingredients: seq<string>)

  /** `getCurrentSeasonalIngredients` for month `month` (`seasonalMap[month] ?? []`): the
      table's list for a month 1 to 12, nothing for any other number. */
  function CurrentSeasonalIngredients(month: int): (r: seq<string>)
    ensures 1 <= month <= 12 ==> r == SeasonalMap[month]
    ensures !(1 <= month <= 12) ==> r == []
  {
    if month in SeasonalMap then SeasonalMap[month] else []
  }

  /** `ings.filter(ing => menuName.includes(ing))`. */
  function MatchedIn(ings: seq<string>, menuName: string): (r: seq<string>)
    ensures |r| <= |ings|
    ensures forall x :: x in r <==> x in ings && Contains(menuName, x)
  {
    if ings == [] then []
    else
      var ing := ings[|ings| - 1];
      var prev := ings[..|ings| - 1];
      assert forall x :: x in ings <==> x in prev || x == ing;
      MatchedIn(prev, menuName) + (if Contains(menuName, ing) then [ing] else [])
  }

  /** `getSeasonalMatch` in month `month`: nothing when no ingredient in season occurs in the
      menu name, else the ones that do. */
  function GetSeasonalMatch(menuName: string, month: int): (r: Option<SeasonalMatch>)
    ensures r.None? <==> forall ing :: ing in CurrentSeasonalIngredients(month) ==> !Contains(menuName, ing)
    ensures r.Some? ==> (r.value.ingredients != []
      && forall x :: x in r.value.ingredients <==> x in CurrentSeasonalIngredients(month) && Contains(menuName, x))
  {
    var matched := MatchedIn(CurrentSeasonalIngredients(month), menuName);
    if |matched| == 0 then None
    else
      assert matched[0] in matched;
      Some(SeasonalMatch(matched))
  }

  /** The filter keeps the list's order: it distributes over concatenation. */
  lemma {:induction false} MatchedAppend(a: seq<string>, b: seq<string>, menuName: string)
    ensures MatchedIn(a + b, menuName) == MatchedIn(a, menuName) + MatchedIn(b, menuName)
  {
    if b == [] {
      assert a + b == a;
    } else {
      var n := |b| - 1;
      assert (a + b)[..|a + b| - 1] == a + b[..n];
      MatchedAppend(a, b[..n], menuName);
    }
  }

  /** The filter keeps a list's distinctness. */
  lemma {:induction false} MatchedDistinct(ings: seq<string>, menuName: string)
    requires Distinct(ings)
    ensures Distinct(MatchedIn(ings, menuName))
  {
    if ings != [] {
      var prev := ings[..|ings| - 1];
      assert Distinct(prev);
      MatchedDistinct(prev, menuName);
      assert ings[|ings| - 1] !in prev;
    }
  }

  /** Every month's list names each ingredient once. */
  lemma {:induction false} SeasonalListsDistinct(month: int)
    ensures Distinct(CurrentSeasonalIngredients(month))
  {
    var s := CurrentSeasonalIngredients(month);
    forall i, j | 0 <= i < j < |s| ensures s[i] != s[j] {
      assert s[i][0] != s[j][0] || s[i][1] != s[j][1] || |s[i]| != |s[j]|;
    }
  }

  /** The matched ingredients are those of the month that occur in the name, each once, in
      the month's order; a month outside 1 to 12 matches nothing. */
  lemma {:induction false} SeasonalMatchMeaning(menuName: string, month: int)
    ensures var r := GetSeasonalMatch(menuName, month);
      r.Some? ==> (Distinct(r.value.ingredients)
        && r.value.ingredients == MatchedIn(CurrentSeasonalIngredients(month), menuName))
    ensures !(1 <= month <= 12) ==> GetSeasonalMatch(menuName, month).None?
  {
    SeasonalListsDistinct(month);
    MatchedDistinct(CurrentSeasonalIngredients(month), menuName);
  }
}
