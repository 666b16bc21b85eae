/** `src/lib/allergens.ts`: the allergens of the Korean food-labelling list whose keywords occur
    in a menu name or in the ingredients of its recipe. The recipe lookup `getRecipe` is not
    part of this model; it is passed in as a function. */
module Allergens {
  import opened Options
  import opened Text
  import opened Sequences

  /** An allergen with its display icon and the words that reveal it. */
  datatype Allergen = Allergen(name: string, icon: string, keywords: seq<string>)

  /** What is reported for a detected allergen. */
  datatype AllergenMatch = AllergenMatch(name: string, icon: string)

  /** `allergenList`, in its order. */
  const AllergenList: seq<Allergen> := [
    Allergen("난류", "🥚", ["계란", "달걀", "메추리알"]),
    Allergen("우유", "🥛", ["우유", "요거트", "치즈", "시리얼"]),
    Allergen("대두", "🫘", ["두부", "된장", "간장", "콩나물"]),
    Allergen("밀", "🌾", ["국수", "우동", "과자", "쿠키", "소면"]),
    Allergen("소고기", "🐄", ["소고기"]),
    Allergen("돼지고기", "🐷", ["돼지고기", "제육"]),
    Allergen("닭고기", "🐔", ["닭고기", "닭가슴살", "닭볶음"]),
    Allergen("연어", "🐟", ["연어"]),
    Allergen("대구", "🐟", ["대구"]),
    Allergen("갈치", "🐟", ["갈치"]),
    Allergen("생선", "🐟", ["생선"]),
    Allergen("어묵", "🍢", ["어묵"])
  ]

  /** `allergen.keywords.some(kw => text.includes(kw))`. */
  predicate Found(a: Allergen, text: string) {
    exists kw | kw in a.keywords :: Contains(text, kw)
  }

  function Reported(a: Allergen): AllergenMatch {
    AllergenMatch(a.name, a.icon)
  }

  /** The text searched: the menu name alone when there is no recipe, else the menu name, a
      space and the recipe's ingredients joined by spaces. */
  function SearchText(menuName: string, recipe: Option<seq<string>>): (s: string)
    ensures IsPrefix(menuName, s)
    ensures recipe.None? ==> s == menuName
    ensures recipe.Some? ==> forall i :: 0 <= i < |recipe.value| ==> Contains(s, recipe.value[i])
  {
    match recipe
    case None => menuName
    case Some(ings) =>
      var joined := Join(ings, " ");
      var s := menuName + " " + joined;
      assert s[|menuName| + 1..] == joined;
      forall i | 0 <= i < |ings| ensures Contains(s, ings[i]) {
        JoinContainsParts(ings, " ", i);
        ContainsSuffix(s, ings[i], |menuName| + 1);
      }
      s
  }

  /** The allergens of `list` found in `text`, in list order. */
  function MatchesIn(list: seq<Allergen>, text: string): (r: seq<AllergenMatch>)
    ensures |r| <= |list|
  {
    if list == [] then []
    else
      var a := list[|list| - 1];
      MatchesIn(list[..|list| - 1], text) + (if Found(a, text) then [Reported(a)] else [])
  }

  /** `getAllergenMatches`, with the recipe lookup as a parameter. */
  method GetAllergenMatches(menuName: string, getRecipe: string -> Option<seq<string>>)
    returns (matched: seq<AllergenMatch>)
    ensures matched == MatchesIn(AllergenList, SearchText(menuName, getRecipe(menuName)))
  {
    var searchText := SearchText(menuName, getRecipe(menuName));
    matched := [];
    var i := 0;
    while i < |AllergenList|
      invariant 0 <= i <= |AllergenList|
      invariant matched == MatchesIn(AllergenList[..i], searchText)
    {
      var allergen := AllergenList[i];
      assert AllergenList[..i + 1][..i] == AllergenList[..i];
      if Found(allergen, searchText) {
        matched := matched + [Reported(allergen)];
      }
      i := i + 1;
    }
    WholePrefix(AllergenList);
  }

  /** The matches of a list are those of its front followed by those of its back: matches
      keep the list's order. */
  lemma {:induction false} MatchesAppend(a: seq<Allergen>, b: seq<Allergen>, text: string)
    ensures MatchesIn(a + b, text) == MatchesIn(a, text) + MatchesIn(b, text)
  {
    if b == [] {
      assert a + b == a;
    } else {
      var n := |b| - 1;
      assert (a + b)[..|a + b| - 1] == a + b[..n];
      MatchesAppend(a, b[..n], text);
    }
  }

  /** An allergen is reported exactly when one of its keywords occurs in the text. */
  lemma {:induction false} MatchesMembers(list: seq<Allergen>, text: string)
    ensures forall m :: m in MatchesIn(list, text) <==>
      exists a :: a in list && Found(a, text) && m == Reported(a)
  {
    if list != [] {
      var prev := list[..|list| - 1];
      MatchesMembers(prev, text);
      assert forall a :: a in list <==> a in prev || a == list[|list| - 1];
    }
  }

  /** Distinct allergens give distinct reports, so each allergen is reported at most once. */
  lemma {:induction false} MatchesOnce(list: seq<Allergen>, text: string)
    requires forall i, j :: 0 <= i < j < |list| ==> list[i].name != list[j].name
    ensures Distinct(MatchesIn(list, text))
  {
    if list != [] {
      var prev := list[..|list| - 1];
      var a := list[|list| - 1];
      MatchesOnce(prev, text);
      MatchesMembers(prev, text);
      forall m | m in MatchesIn(prev, text) ensures m.name != a.name {
        var b :| b in prev && Found(b, text) && m == Reported(b);
        var i :| 0 <= i < |prev| && prev[i] == b;
        assert list[i] == b;
      }
    }
  }

  /** The allergens of `allergenList` have distinct names. */
  lemma {:induction false} AllergenNamesDistinct()
    ensures forall i, j :: 0 <= i < j < |AllergenList| ==> AllergenList[i].name != AllergenList[j].name
  {
    forall i, j | 0 <= i < j < |AllergenList| ensures AllergenList[i].name != AllergenList[j].name {
      var x, y := AllergenList[i].name, AllergenList[j].name;
      assert x[0] != y[0] || x[1] != y[1];
    }
  }

  /** `getAllergenMatches` reports each allergen at most once, and exactly those with a keyword
      in the search text. */
  lemma {:induction false} ReportedOnce(text: string)
    ensures Distinct(MatchesIn(AllergenList, text))
    ensures forall a :: a in AllergenList ==> (Found(a, text) <==> Reported(a) in MatchesIn(AllergenList, text))
  {
    AllergenNamesDistinct();
    MatchesOnce(AllergenList, text);
    MatchesMembers(AllergenList, text);
    forall a | a in AllergenList && Reported(a) in MatchesIn(AllergenList, text) ensures Found(a, text) {
      var b :| b in AllergenList && Found(b, text) && Reported(a) == Reported(b);
      var i :| 0 <= i < |AllergenList| && AllergenList[i] == a;
      var j :| 0 <= j < |AllergenList| && AllergenList[j] == b;
      assert i == j;
    }
  }

  /** A keyword in the menu name itself is reported whatever the recipe holds: the recipe
      can only add allergens. */
  lemma {:induction false} RecipeOnlyAdds(menuName: string, recipe: Option<seq<string>>)
    ensures forall m :: m in MatchesIn(AllergenList, menuName) ==>
      m in MatchesIn(AllergenList, SearchText(menuName, recipe))
  {
    var text := SearchText(menuName, recipe);
    assert text == menuName + text[|menuName|..];
    MatchesMembers(AllergenList, menuName);
    MatchesMembers(AllergenList, text);
    forall a | a in AllergenList && Found(a, menuName) ensures Found(a, text) {
      var kw :| kw in a.keywords && Contains(menuName, kw);
      ContainsExtend(menuName, text[|menuName|..], kw);
    }
  }

  /** An ingredient of the recipe that is a keyword reveals its allergen even when the menu
      name does not mention it. */
  lemma {:induction false} RecipeIngredientReported(menuName: string, ings: seq<string>, a: Allergen, i: nat)
    requires a in AllergenList && i < |ings| && ings[i] in a.keywords
    ensures Reported(a) in MatchesIn(AllergenList, SearchText(menuName, Some(ings)))
  {
    var text := SearchText(menuName, Some(ings));
    assert Found(a, text);
    MatchesMembers(AllergenList, text);
  }
}
