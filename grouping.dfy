/** Grouping siblings whose stages are close enough to share one plan. */
module Grouping {
  import opened Sequences
  import opened Stages

  /** A child as entered on the page (`labelText` is the source's `label`, a Dafny keyword). */
  datatype ChildInfo = ChildInfo(index: int, labelText: string, months: int, stageName: string)

  /** Children sharing a plan; the base stage is the youngest stage in the group. */
  datatype StageGroup = StageGroup(children: seq<ChildInfo>, baseStageName: string)

  function ChildOrder(c: ChildInfo): (o: int)
    ensures -1 <= o <= 6
  {
    StageOrder(c.stageName)
  }

  /** The children sorted by stage order, stably. */
  function SortByStage(children: seq<ChildInfo>): seq<ChildInfo> {
    SortByKey(children, ChildOrder, -1, 6)
  }

  /** The children of all groups, group after group. */
  function Flatten(groups: seq<StageGroup>): seq<ChildInfo> {
    if groups == [] then [] else Flatten(groups[..|groups| - 1]) + groups[|groups| - 1].children
  }

  /** A group is non-empty, named after its first child's stage, and every member's stage is
      at most two steps past that base stage. */
  predicate GroupShaped(g: StageGroup) {
    g.children != [] && g.baseStageName == g.children[0].stageName
    && forall c :: c in g.children ==> 0 <= ChildOrder(c) - StageOrder(g.baseStageName) <= 2
  }

  /** Each group's base stage is more than two steps past the previous group's base. */
  predicate Separated(groups: seq<StageGroup>) {
    forall k :: 0 <= k < |groups| - 1 ==>
      StageOrder(groups[k + 1].baseStageName) > StageOrder(groups[k].baseStageName) + 2
  }

  /** Greedy grouping of the stage-sorted children: a child joins the current group while its
      stage is within two steps of the group's base stage, and otherwise starts a new group. */
  method GroupChildrenByStage(children: seq<ChildInfo>) returns (groups: seq<StageGroup>)
    ensures children == [] <==> groups == []
    ensures Flatten(groups) == SortByStage(children)
    ensures forall k :: 0 <= k < |groups| ==> GroupShaped(groups[k])
    ensures Separated(groups)
  {
    if |children| == 0 {
      SortByStageEmpty(children);
      return [];
    }
    var sorted := SortByStage(children);
    SortByStageFacts(children);
    groups := GroupSorted(sorted);
  }

  /** The grouping loop over children already sorted by stage order. */
  method GroupSorted(sorted: seq<ChildInfo>) returns (groups: seq<StageGroup>)
    requires sorted != [] && SortedByKey(sorted, ChildOrder)
    ensures groups != []
    ensures Flatten(groups) == sorted
    ensures forall k :: 0 <= k < |groups| ==> GroupShaped(groups[k])
    ensures Separated(groups)
  {
    groups := [];
    var current := StageGroup([sorted[0]], sorted[0].stageName);
    InitStep(sorted);
    ghost var start := 0;
    var i := 1;
    while i < |sorted|
      invariant 1 <= i <= |sorted|
      invariant GroupedSoFar(sorted, groups, current, start, i)
    {
      groups, current, start := Advance(sorted, groups, current, start, i);
      i := i + 1;
    }
    FinishStep(sorted, groups, current, start);
    groups := groups + [current];
  }

  /** One turn of the grouping loop: child `i` joins the open group when its stage is within
      two of the group's base stage, and otherwise closes it and opens a new one. */
  method Advance(sorted: seq<ChildInfo>, groups: seq<StageGroup>, current: StageGroup, ghost start: int, i: int)
    returns (groups': seq<StageGroup>, current': StageGroup, ghost start': int)
    requires GroupedSoFar(sorted, groups, current, start, i) && i < |sorted|
    ensures GroupedSoFar(sorted, groups', current', start', i + 1)
  {
    var prevOrder := StageOrder(current.baseStageName);
    var curOrder := StageOrder(sorted[i].stageName);
    if curOrder - prevOrder <= 2 {
      JoinStep(sorted, groups, current, start, i);
      groups', current', start' := groups, current.(children := current.children + [sorted[i]]), start;
    } else {
      CloseStep(sorted, groups, current, start, i);
      groups', current', start' := groups + [current], StageGroup([sorted[i]], sorted[i].stageName), i;
    }
  }

  /** The loop's state after the first `i` sorted children: closed groups cover
      `sorted[..start]`, the open group holds `sorted[start..i]`, and all are well shaped and
      separated. */
  predicate GroupedSoFar(sorted: seq<ChildInfo>, groups: seq<StageGroup>, current: StageGroup, start: int, i: int) {
    0 <= start < i <= |sorted| && SortedByKey(sorted, ChildOrder)
    && current.children == sorted[start..i] && current.baseStageName == sorted[start].stageName
    && Flatten(groups) == sorted[..start]
    && (forall k :: 0 <= k < |groups| ==> GroupShaped(groups[k]))
    && GroupShaped(current)
    && Separated(groups + [current])
  }

  lemma {:induction false} JoinStep(sorted: seq<ChildInfo>, groups: seq<StageGroup>, current: StageGroup, start: int, i: int)
    requires GroupedSoFar(sorted, groups, current, start, i) && i < |sorted|
    requires ChildOrder(sorted[i]) - StageOrder(current.baseStageName) <= 2
    ensures GroupedSoFar(sorted, groups, current.(children := current.children + [sorted[i]]), start, i + 1)
  {
    assert ChildOrder(sorted[start]) <= ChildOrder(sorted[i]);
    JoinGroup(groups, current, sorted[i]);
    assert sorted[start..i + 1] == sorted[start..i] + [sorted[i]];
  }

  lemma {:induction false} CloseStep(sorted: seq<ChildInfo>, groups: seq<StageGroup>, current: StageGroup, start: int, i: int)
    requires GroupedSoFar(sorted, groups, current, start, i) && i < |sorted|
    requires ChildOrder(sorted[i]) - StageOrder(current.baseStageName) > 2
    ensures GroupedSoFar(sorted, groups + [current], StageGroup([sorted[i]], sorted[i].stageName), i, i + 1)
  {
    CloseGroup(groups, current, sorted[i]);
    FlattenAppend(groups, current);
    assert sorted[..start] + sorted[start..i] == sorted[..i];
    assert sorted[i..i + 1] == [sorted[i]];
  }

  lemma {:induction false} FinishStep(sorted: seq<ChildInfo>, groups: seq<StageGroup>, current: StageGroup, start: int)
    requires GroupedSoFar(sorted, groups, current, start, |sorted|)
    ensures Flatten(groups + [current]) == sorted
    ensures forall k :: 0 <= k < |groups + [current]| ==> GroupShaped((groups + [current])[k])
    ensures Separated(groups + [current])
  {
    FinishCovers(sorted, groups, current, start);
    FinishShaped(sorted, groups, current, start);
  }

  lemma {:induction false} FinishCovers(sorted: seq<ChildInfo>, groups: seq<StageGroup>, current: StageGroup, start: int)
    requires GroupedSoFar(sorted, groups, current, start, |sorted|)
    ensures Flatten(groups + [current]) == sorted
  {
    FlattenAppend(groups, current);
    assert sorted[..start] + sorted[start..|sorted|] == sorted;
  }

  lemma {:induction false} FinishShaped(sorted: seq<ChildInfo>, groups: seq<StageGroup>, current: StageGroup, start: int)
    requires GroupedSoFar(sorted, groups, current, start, |sorted|)
    ensures forall k :: 0 <= k < |groups + [current]| ==> GroupShaped((groups + [current])[k])
  {
  }

  lemma {:induction false} InitStep(sorted: seq<ChildInfo>)
    requires 0 < |sorted| && SortedByKey(sorted, ChildOrder)
    ensures GroupedSoFar(sorted, [], StageGroup([sorted[0]], sorted[0].stageName), 0, 1)
  {
    assert sorted[0..1] == [sorted[0]];
  }

  /** Facts about the sorted children the grouping loop relies on. */
  lemma {:induction false} SortByStageFacts(children: seq<ChildInfo>)
    ensures |SortByStage(children)| == |children|
    ensures SortedByKey(SortByStage(children), ChildOrder)
  {
    SortByKeyPermutes(children, ChildOrder, -1, 6);
    SortByKeySorted(children, ChildOrder, -1, 6);
    assert |SortByStage(children)| == |multiset(SortByStage(children))| == |children|;
  }

  lemma {:induction false} SortByStageEmpty(children: seq<ChildInfo>)
    requires |children| == 0
    ensures SortByStage(children) == [] == Flatten([])
  {
    SortByKeyEmpty(ChildOrder, -1, 6);
  }

  lemma {:induction false} FlattenAppend(groups: seq<StageGroup>, g: StageGroup)
    ensures Flatten(groups + [g]) == Flatten(groups) + g.children
  {
    assert (groups + [g])[..|groups|] == groups;
  }

  /** A child within two steps past the base joins the group, which stays well shaped and
      keeps its base. */
  lemma {:induction false} JoinGroup(groups: seq<StageGroup>, g: StageGroup, c: ChildInfo)
    requires GroupShaped(g) && 0 <= ChildOrder(c) - StageOrder(g.baseStageName) <= 2
    requires Separated(groups + [g])
    ensures GroupShaped(g.(children := g.children + [c]))
    ensures Separated(groups + [g.(children := g.children + [c])])
  {
    var g' := g.(children := g.children + [c]);
    assert forall k :: 0 <= k < |groups| + 1 ==>
      (groups + [g'])[k].baseStageName == (groups + [g])[k].baseStageName;
  }

  /** Closing the current group and opening one for a child more than two steps past its base
      keeps the groups separated. */
  lemma {:induction false} CloseGroup(groups: seq<StageGroup>, current: StageGroup, c: ChildInfo)
    requires Separated(groups + [current])
    requires ChildOrder(c) - StageOrder(current.baseStageName) > 2
    ensures Separated(groups + [current] + [StageGroup([c], c.stageName)])
  {
  }

  // ---------------------------------------------------------------------------
  // The postconditions of GroupChildrenByStage determine its result.

  /** At most one sequence of groups flattens to a given stage-sorted sequence while being
      well shaped and separated; so the greedy grouping is the only one with these properties. */
  lemma {:induction false} GroupingUnique(g1: seq<StageGroup>, g2: seq<StageGroup>)
    requires Flatten(g1) == Flatten(g2) && SortedByKey(Flatten(g1), ChildOrder)
    requires forall k :: 0 <= k < |g1| ==> GroupShaped(g1[k])
    requires forall k :: 0 <= k < |g2| ==> GroupShaped(g2[k])
    requires Separated(g1) && Separated(g2)
    ensures g1 == g2
    decreases |g1|
  {
    if g1 == [] || g2 == [] {
      FlattenEmpty(g1);
      FlattenEmpty(g2);
    } else {
      HeadsAgree(g1, g2);
      var r1, r2 := g1[1..], g2[1..];
      assert forall k :: 0 <= k < |r1| ==> r1[k] == g1[k + 1];
      assert forall k :: 0 <= k < |r2| ==> r2[k] == g2[k + 1];
      SeparatedSuffix(g1);
      SeparatedSuffix(g2);
      GroupingUnique(r1, r2);
      ConsSplit(g1);
      ConsSplit(g2);
    }
  }

  /** Two such groupings have the same first group, and the rest flattens to the same sorted
      remainder. */
  lemma {:induction false} HeadsAgree(g1: seq<StageGroup>, g2: seq<StageGroup>)
    requires g1 != [] && g2 != []
    requires Flatten(g1) == Flatten(g2) && SortedByKey(Flatten(g1), ChildOrder)
    requires forall k :: 0 <= k < |g1| ==> GroupShaped(g1[k])
    requires forall k :: 0 <= k < |g2| ==> GroupShaped(g2[k])
    requires Separated(g1) && Separated(g2)
    ensures g1[0] == g2[0]
    ensures Flatten(g1[1..]) == Flatten(g2[1..]) && SortedByKey(Flatten(g1[1..]), ChildOrder)
  {
    var s := Flatten(g1);
    FlattenCons(g1);
    FlattenCons(g2);
    var m1, m2 := |g1[0].children|, |g2[0].children|;
    FirstGroupIsLowPrefix(g1, s);
    FirstGroupIsLowPrefix(g2, s);
    LowPrefixLength(s, ChildOrder(s[0]), m1, m2);
    assert g1[0].baseStageName == s[0].stageName == g2[0].baseStageName;
    assert Flatten(g1[1..]) == s[m1..] == Flatten(g2[1..]);
    SortedSuffix(s, m1);
  }

  /** In a well-shaped, separated grouping the first group holds exactly the leading children
      whose stage order is at most two past the first child's. */
  lemma {:induction false} FirstGroupIsLowPrefix(g: seq<StageGroup>, s: seq<ChildInfo>)
    requires g != [] && (forall k :: 0 <= k < |g| ==> GroupShaped(g[k])) && Separated(g)
    requires s == Flatten(g) == g[0].children + Flatten(g[1..])
    ensures |g[0].children| <= |s| && s != [] && g[0].children == s[..|g[0].children|]
    ensures forall j :: 0 <= j < |g[0].children| ==> ChildOrder(s[j]) <= ChildOrder(s[0]) + 2
    ensures forall j :: |g[0].children| <= j < |s| ==> ChildOrder(s[j]) > ChildOrder(s[0]) + 2
  {
    FirstGroupLow(g, s);
    RestHigh(g, s);
  }

  /** The first group's children lead the list, all within two stages of the first child. */
  lemma {:induction false} FirstGroupLow(g: seq<StageGroup>, s: seq<ChildInfo>)
    requires g != [] && GroupShaped(g[0])
    requires s == g[0].children + Flatten(g[1..])
    ensures |g[0].children| <= |s| && s != [] && g[0].children == s[..|g[0].children|]
    ensures StageOrder(g[0].baseStageName) == ChildOrder(s[0])
    ensures forall j :: 0 <= j < |g[0].children| ==> ChildOrder(s[j]) <= ChildOrder(s[0]) + 2
  {
    var c := g[0].children;
    assert s[0] == c[0];
    forall j | 0 <= j < |c| ensures ChildOrder(s[j]) <= ChildOrder(s[0]) + 2 {
      assert s[j] == c[j];
    }
  }

  /** The children after the first group are all more than two stages past its base. */
  lemma {:induction false} RestHigh(g: seq<StageGroup>, s: seq<ChildInfo>)
    requires g != [] && (forall k :: 0 <= k < |g| ==> GroupShaped(g[k])) && Separated(g)
    requires s == g[0].children + Flatten(g[1..])
    ensures forall j :: |g[0].children| <= j < |s| ==> ChildOrder(s[j]) > StageOrder(g[0].baseStageName) + 2
  {
    var m := |g[0].children|;
    var b := StageOrder(g[0].baseStageName);
    BasesIncrease(g);
    var rest := g[1..];
    assert forall k :: 0 <= k < |rest| ==> rest[k] == g[k + 1];
    FlattenAbove(rest, b + 2);
    forall j | m <= j < |s| ensures ChildOrder(s[j]) > b + 2 {
      assert s[j] == Flatten(rest)[j - m];
    }
  }

  /** Two lengths of the same leading run of stage orders at most `b + 2` are equal. */
  lemma {:induction false} LowPrefixLength(s: seq<ChildInfo>, b: int, m1: nat, m2: nat)
    requires m1 <= |s| && m2 <= |s|
    requires forall j :: 0 <= j < m1 ==> ChildOrder(s[j]) <= b + 2
    requires forall j :: m1 <= j < |s| ==> ChildOrder(s[j]) > b + 2
    requires forall j :: 0 <= j < m2 ==> ChildOrder(s[j]) <= b + 2
    requires forall j :: m2 <= j < |s| ==> ChildOrder(s[j]) > b + 2
    ensures m1 == m2
  {
    if m1 < m2 {
      ElementOf(s, m1);
    } else if m2 < m1 {
      ElementOf(s, m2);
    }
  }

  lemma {:induction false} ConsSplit(g: seq<StageGroup>)
    requires g != []
    ensures g == [g[0]] + g[1..]
  {
  }

  lemma {:induction false} ElementOf(s: seq<ChildInfo>, j: nat)
    requires j < |s|
    ensures s[j] in s
  {
  }

  lemma {:induction false} FlattenEmpty(g: seq<StageGroup>)
    requires forall k :: 0 <= k < |g| ==> GroupShaped(g[k])
    ensures Flatten(g) == [] <==> g == []
  {
    if g != [] {
      assert GroupShaped(g[|g| - 1]);
    }
  }

  lemma {:induction false} FlattenCons(g: seq<StageGroup>)
    requires g != []
    ensures Flatten(g) == g[0].children + Flatten(g[1..])
    decreases |g|
  {
    if |g| > 1 {
      var init := g[..|g| - 1];
      FlattenCons(init);
      assert init[1..] == g[1..][..|g[1..]| - 1];
    } else {
      assert g[1..] == [] && g[..0] == [];
    }
  }

  /** Every child in groups whose bases all exceed `b` has stage order above `b`. */
  lemma {:induction false} FlattenAbove(g: seq<StageGroup>, b: int)
    requires forall k :: 0 <= k < |g| ==> GroupShaped(g[k]) && StageOrder(g[k].baseStageName) > b
    ensures forall x :: x in Flatten(g) ==> ChildOrder(x) > b
    decreases |g|
  {
    if g != [] {
      FlattenAbove(g[..|g| - 1], b);
      assert GroupShaped(g[|g| - 1]);
    }
  }

  /** Separation makes every later base more than two past the first. */
  lemma {:induction false} BasesIncrease(g: seq<StageGroup>)
    requires g != [] && Separated(g)
    ensures forall k :: 1 <= k < |g| ==> StageOrder(g[k].baseStageName) > StageOrder(g[0].baseStageName) + 2
  {
    var b := StageOrder(g[0].baseStageName);
    var k := 1;
    while k < |g|
      invariant 1 <= k <= |g|
      invariant forall j :: 1 <= j < k ==> StageOrder(g[j].baseStageName) > b + 2
    {
      assert StageOrder(g[k].baseStageName) > StageOrder(g[k - 1].baseStageName) + 2;
      k := k + 1;
    }
  }

  lemma {:induction false} SeparatedSuffix(g: seq<StageGroup>)
    requires g != [] && Separated(g)
    ensures Separated(g[1..])
  {
    var rest := g[1..];
    assert forall k :: 0 <= k < |rest| ==> rest[k] == g[k + 1];
  }

  lemma {:induction false} SortedSuffix(s: seq<ChildInfo>, m: nat)
    requires m <= |s| && SortedByKey(s, ChildOrder)
    ensures SortedByKey(s[m..], ChildOrder)
  {
    assert forall i :: 0 <= i < |s| - m ==> s[m..][i] == s[m + i];
  }
}
