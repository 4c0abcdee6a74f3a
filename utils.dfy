/**
 * Rank fusion and de-duplication (contextual-rag/src/utils.ts): vector matches
 * are grouped by `namespace_id` and their scores averaged, lexical matches are
 * grouped by `docId_id`, and the two de-duplicated lists are merged by
 * reciprocal rank fusion into at most 150 candidates.
 */
module Utils {

  import opened Wrappers
  import opened Js
  import opened Grouping
  import opened Sorting

  /** A vector-index match: id, namespace, similarity score and the metadata stored at ingestion. */
  datatype VectorMatch = VectorMatch(id: string, namespace: Option<string>, score: real, docId: string, text: string)

  /** A de-duplicated vector match; `count` is how many matches were merged into it. */
  datatype VectorGroup = VectorGroup(id: string, namespace: Option<string>, score: real, docId: string, text: string, count: nat)

  /** A full-text match with the engine's rank. */
  datatype DocMatch = DocMatch(id: string, docId: string, text: string, rank: real)

  /**
   * A de-duplicated full-text match. `rankSum` is never initialised by the
   * source, so it is `undefined` or NaN: both behave as NaN in arithmetic.
   */
  datatype DocGroup = DocGroup(id: string, docId: string, text: string, rank: Number, rankSum: Number, count: nat)

  /** `${namespace}` renders an absent namespace as "undefined". */
  function NamespaceText(ns: Option<string>): string {
    match ns
    case Some(n) => n
    case None => "undefined"
  }

  /** The grouping key `${item.namespace}_${item.id}`. */
  function VectorKey(m: VectorMatch): string {
    NamespaceText(m.namespace) + "_" + m.id
  }

  function GroupKey(g: VectorGroup): string {
    NamespaceText(g.namespace) + "_" + g.id
  }

  function MatchScore(m: VectorMatch): real {
    m.score
  }

  function GroupScore(g: VectorGroup): real {
    g.score
  }

  /** The grouping key `${item.docId}_${item.id}`. */
  function DocKey(m: DocMatch): string {
    m.docId + "_" + m.id
  }

  function DocGroupKey(g: DocGroup): string {
    g.docId + "_" + g.id
  }

  /** The keys of a `Map` or object are exactly those listed in its insertion order. */
  ghost predicate KeysInOrder<V>(m: map<string, V>, order: seq<string>) {
    forall k :: k in m <==> k in order
  }

  /** Setting a key keeps the insertion order up to date: a new key goes last. */
  lemma KeysInOrderStep<V>(m: map<string, V>, order: seq<string>, key: string, v: V)
    requires KeysInOrder(m, order)
    ensures KeysInOrder(m[key := v], if key in m then order else order + [key])
  {
  }

  // ---------------------------------------------------------------------------
  // uniqueVectorMatches

  /** The group held for key `k` after reading `s`: the first match's fields, the running score sum and count. */
  function RunningVectorGroup(s: seq<VectorMatch>, k: string): VectorGroup
    requires HasKey(s, VectorKey, k)
  {
    var f := FirstWith(s, VectorKey, k);
    VectorGroup(f.id, f.namespace, SumWhere(s, VectorKey, k, MatchScore), f.docId, f.text, Count(s, VectorKey, k))
  }

  /** The output entry for key `k`: the running group with its score averaged. */
  function MeanVectorGroup(s: seq<VectorMatch>, k: string): VectorGroup
    requires HasKey(s, VectorKey, k)
  {
    var g := RunningVectorGroup(s, k);
    g.(score := g.score / g.count as real)
  }

  /** One averaged group per distinct key, in order of first occurrence. */
  function GroupedVectors(s: seq<VectorMatch>): seq<VectorGroup> {
    var keys := KeyOrder(s, VectorKey);
    seq(|keys|, j requires 0 <= j < |keys| => MeanVectorGroup(s, keys[j]))
  }

  /** The comparator `(a, b) => b.score - a.score`. */
  function ByScoreDesc(a: VectorGroup, b: VectorGroup): Number {
    Num(b.score - a.score)
  }

  /** What `uniqueVectorMatches(items)` returns. */
  function UniqueVectors(items: seq<VectorMatch>): seq<VectorGroup> {
    Sort(GroupedVectors(items), ByScoreDesc)
  }

  /** `{...item, count: 1}`: the group a new key starts with. */
  function StartVectorGroup(x: VectorMatch): VectorGroup {
    VectorGroup(x.id, x.namespace, x.score, x.docId, x.text, 1)
  }

  /** `group.score += item.score; group.count += 1`. */
  function AddToVectorGroup(g: VectorGroup, x: VectorMatch): VectorGroup {
    g.(score := g.score + x.score, count := g.count + 1)
  }

  /** The loop's `Map` (with its insertion order) holds the running group of every key read so far. */
  ghost predicate VectorGroupsOf(groups: map<string, VectorGroup>, order: seq<string>, s: seq<VectorMatch>) {
    && order == KeyOrder(s, VectorKey)
    && KeysInOrder(groups, order)
    && VectorGroupsRunning(groups, s)
  }

  ghost predicate VectorGroupsRunning(groups: map<string, VectorGroup>, s: seq<VectorMatch>) {
    forall k :: k in groups ==> HasKey(s, VectorKey, k) && groups[k] == RunningVectorGroup(s, k)
  }

  /** One iteration of the grouping loop keeps the groups equal to the running groups. */
  lemma VectorGroupsStep(groups: map<string, VectorGroup>, order: seq<string>, p: seq<VectorMatch>, x: VectorMatch)
    requires VectorGroupsOf(groups, order, p)
    ensures var key := VectorKey(x);
      if key !in groups then VectorGroupsOf(groups[key := StartVectorGroup(x)], order + [key], p + [x])
      else VectorGroupsOf(groups[key := AddToVectorGroup(groups[key], x)], order, p + [x])
  {
    var key := VectorKey(x);
    AppendKeys(p, x, VectorKey, key);
    assert key in groups <==> HasKey(p, VectorKey, key);
    var g := if key in groups then AddToVectorGroup(groups[key], x) else StartVectorGroup(x);
    VectorRunningStep(groups, p, x, g);
    KeysInOrderStep(groups, order, key, g);
  }

  /** Storing the updated group of `x`'s key keeps every group equal to its running group. */
  lemma VectorRunningStep(groups: map<string, VectorGroup>, p: seq<VectorMatch>, x: VectorMatch, g: VectorGroup)
    requires VectorGroupsRunning(groups, p)
    requires VectorKey(x) in groups <==> HasKey(p, VectorKey, VectorKey(x))
    requires g == if VectorKey(x) in groups then AddToVectorGroup(groups[VectorKey(x)], x) else StartVectorGroup(x)
    ensures VectorGroupsRunning(groups[VectorKey(x) := g], p + [x])
  {
    var key := VectorKey(x);
    RunningVectorAppendSame(p, x);
    forall k | k in groups && k != key ensures HasKey(p + [x], VectorKey, k) && RunningVectorGroup(p + [x], k) == RunningVectorGroup(p, k) {
      RunningVectorAppendOther(p, x, k);
    }
  }

  lemma RunningVectorAppendSame(p: seq<VectorMatch>, x: VectorMatch)
    ensures HasKey(p + [x], VectorKey, VectorKey(x))
    ensures RunningVectorGroup(p + [x], VectorKey(x)) ==
      if HasKey(p, VectorKey, VectorKey(x)) then AddToVectorGroup(RunningVectorGroup(p, VectorKey(x)), x)
      else StartVectorGroup(x)
  {
    var k := VectorKey(x);
    AppendKeys(p, x, VectorKey, k);
    AppendFirstLast(p, x, VectorKey, k);
    AppendSum(p, x, VectorKey, k, MatchScore);
    var f' := FirstWith(p + [x], VectorKey, k);
    var sum' := SumWhere(p + [x], VectorKey, k, MatchScore);
    var count' := Count(p + [x], VectorKey, k);
    assert RunningVectorGroup(p + [x], k) == VectorGroup(f'.id, f'.namespace, sum', f'.docId, f'.text, count');
    if HasKey(p, VectorKey, k) {
      assert f' == FirstWith(p, VectorKey, k);
      assert sum' == SumWhere(p, VectorKey, k, MatchScore) + x.score;
      assert count' == Count(p, VectorKey, k) + 1;
    } else {
      SumWhereAbsent(p, VectorKey, k, MatchScore);
      assert f' == x && sum' == x.score && count' == 1;
    }
  }

  lemma RunningVectorAppendOther(p: seq<VectorMatch>, x: VectorMatch, k: string)
    requires HasKey(p, VectorKey, k) && k != VectorKey(x)
    ensures HasKey(p + [x], VectorKey, k)
    ensures RunningVectorGroup(p + [x], k) == RunningVectorGroup(p, k)
  {
    AppendKeys(p, x, VectorKey, k);
    AppendFirstLast(p, x, VectorKey, k);
    AppendSum(p, x, VectorKey, k, MatchScore);
  }

  /** Group vector matches by `namespace_id`, average each group's score and sort by it, largest first. */
  method UniqueVectorMatches(items: seq<VectorMatch>) returns (r: seq<VectorGroup>)
    ensures r == UniqueVectors(items)
  {
    var groups: map<string, VectorGroup> := map[];
    var order: seq<string> := [];  // the Map's insertion order
    for i := 0 to |items|
      invariant VectorGroupsOf(groups, order, items[..i])
    {
      var item := items[i];
      var key := VectorKey(item);
      assert items[..i + 1] == items[..i] + [item];
      VectorGroupsStep(groups, order, items[..i], item);
      if key !in groups {
        groups := groups[key := StartVectorGroup(item)];
        order := order + [key];
      } else {
        var group := groups[key];
        groups := groups[key := AddToVectorGroup(group, item)];
      }
    }
    assert items[..|items|] == items;
    var result := seq(|order|, j requires 0 <= j < |order| =>
      var g := groups[order[j]]; g.(score := g.score / g.count as real));
    assert result == GroupedVectors(items);
    r := Sort(result, ByScoreDesc);
  }

  /** The output holds exactly one entry per distinct `namespace_id` key of the input, so it is no longer than the input. */
  lemma UniqueVectorsKeys(items: seq<VectorMatch>)
    ensures DistinctBy(UniqueVectors(items), GroupKey)
    ensures forall k :: HasKey(UniqueVectors(items), GroupKey, k) <==> HasKey(items, VectorKey, k)
    ensures |UniqueVectors(items)| <= |items|
  {
    var g := GroupedVectors(items);
    var keys := KeyOrder(items, VectorKey);
    forall j | 0 <= j < |g| ensures GroupKey(g[j]) == keys[j] {
      GroupedVectorsKey(items, j);
    }
    SortDistinctBy(g, ByScoreDesc, GroupKey);
    forall k | HasKey(UniqueVectors(items), GroupKey, k) ensures HasKey(items, VectorKey, k) {
      UniqueVectorsKeyFrom(items, k);
    }
    forall k | HasKey(items, VectorKey, k) ensures HasKey(UniqueVectors(items), GroupKey, k) {
      UniqueVectorsKeyTo(items, k);
    }
  }

  /** Group `j` carries the `j`-th distinct key. */
  lemma GroupedVectorsKey(items: seq<VectorMatch>, j: nat)
    requires j < |KeyOrder(items, VectorKey)|
    ensures j < |GroupedVectors(items)| && GroupKey(GroupedVectors(items)[j]) == KeyOrder(items, VectorKey)[j]
  {
    var keys := KeyOrder(items, VectorKey);
    assert keys[j] in keys;
    var f := FirstWith(items, VectorKey, keys[j]);
    assert GroupKey(MeanVectorGroup(items, keys[j])) == VectorKey(f);
  }

  lemma UniqueVectorsKeyFrom(items: seq<VectorMatch>, k: string)
    requires HasKey(UniqueVectors(items), GroupKey, k)
    ensures HasKey(items, VectorKey, k)
  {
    var g := GroupedVectors(items);
    var keys := KeyOrder(items, VectorKey);
    var r := UniqueVectors(items);
    var i :| 0 <= i < |r| && GroupKey(r[i]) == k;
    SortSameElements(g, ByScoreDesc, r[i]);
    var j :| 0 <= j < |g| && g[j] == r[i];
    GroupedVectorsKey(items, j);
    assert keys[j] in keys;
  }

  lemma UniqueVectorsKeyTo(items: seq<VectorMatch>, k: string)
    requires HasKey(items, VectorKey, k)
    ensures HasKey(UniqueVectors(items), GroupKey, k)
  {
    var g := GroupedVectors(items);
    var keys := KeyOrder(items, VectorKey);
    var r := UniqueVectors(items);
    assert k in keys;
    var j :| 0 <= j < |keys| && keys[j] == k;
    GroupedVectorsKey(items, j);
    SortSameElements(g, ByScoreDesc, g[j]);
    var i :| 0 <= i < |r| && r[i] == g[j];
  }

  /**
   * Every entry carries the number of input matches with its key and the
   * arithmetic mean of their scores, and the fields of the first of them.
   */
  lemma UniqueVectorsMean(items: seq<VectorMatch>, g: VectorGroup)
    requires g in UniqueVectors(items)
    ensures HasKey(items, VectorKey, GroupKey(g))
    ensures g.count == Count(items, VectorKey, GroupKey(g)) > 0
    ensures g.score == SumWhere(items, VectorKey, GroupKey(g), MatchScore) / g.count as real
    ensures var f := FirstWith(items, VectorKey, GroupKey(g)); g.id == f.id && g.docId == f.docId && g.text == f.text
  {
    SortSameElements(GroupedVectors(items), ByScoreDesc, g);
    var keys := KeyOrder(items, VectorKey);
    var j :| 0 <= j < |keys| && GroupedVectors(items)[j] == g;
    var k := keys[j];
    assert k in keys;
    assert g == MeanVectorGroup(items, k);
    var f := FirstWith(items, VectorKey, k);
    assert GroupKey(g) == VectorKey(f) == k;
  }

  /** The output is sorted by score, largest first. */
  lemma UniqueVectorsSorted(items: seq<VectorMatch>)
    ensures NonIncreasing(UniqueVectors(items), GroupScore)
  {
    SortNonIncreasing(GroupedVectors(items), ByScoreDesc, GroupScore);
  }

  /** Three matches of one chunk scoring 0.2, 0.4 and 0.6 become one entry with score 0.4 and count 3. */
  lemma UniqueVectorsMeanExample(s: seq<VectorMatch>)
    requires |s| == 3 && VectorKey(s[0]) == VectorKey(s[1]) == VectorKey(s[2])
    requires s[0].score == 0.2 && s[1].score == 0.4 && s[2].score == 0.6
    ensures |UniqueVectors(s)| == 1
    ensures UniqueVectors(s)[0].score == 0.4 && UniqueVectors(s)[0].count == 3
  {
    var k := VectorKey(s[0]);
    ThreeOfOneKey(s);
    var r := UniqueVectors(s);
    assert |r| == 1;
    var g := r[0];
    UniqueVectorsMean(s, g);
    assert GroupKey(g) in KeyOrder(s, VectorKey);
    assert GroupKey(g) == k;
    var sum := SumWhere(s, VectorKey, GroupKey(g), MatchScore);
    assert sum == 1.2 && g.count == 3;
    MeanOfThree(g.score, sum, g.count);
  }

  lemma ThreeOfOneKey(s: seq<VectorMatch>)
    requires |s| == 3 && VectorKey(s[0]) == VectorKey(s[1]) == VectorKey(s[2])
    requires s[0].score == 0.2 && s[1].score == 0.4 && s[2].score == 0.6
    ensures var k := VectorKey(s[0]);
      && KeyOrder(s, VectorKey) == [k]
      && Count(s, VectorKey, k) == 3
      && SumWhere(s, VectorKey, k, MatchScore) == 1.2
  {
    var k := VectorKey(s[0]);
    var s1 := [s[0]];
    var s2 := s1 + [s[1]];
    assert [] + [s[0]] == s1;
    OneMoreOfKey([], s[0], k, 0, 0.0);
    OneMoreOfKey(s1, s[1], k, 1, 0.2);
    assert s == s2 + [s[2]];
    OneMoreOfKey(s2, s[2], k, 2, 0.6);
  }

  lemma OneMoreOfKey(p: seq<VectorMatch>, x: VectorMatch, k: string, n: nat, sum: real)
    requires VectorKey(x) == k
    requires KeyOrder(p, VectorKey) == if n == 0 then [] else [k]
    requires Count(p, VectorKey, k) == n && SumWhere(p, VectorKey, k, MatchScore) == sum
    ensures KeyOrder(p + [x], VectorKey) == [k]
    ensures Count(p + [x], VectorKey, k) == n + 1 && SumWhere(p + [x], VectorKey, k, MatchScore) == sum + x.score
  {
    AppendKeys(p, x, VectorKey, k);
    AppendSum(p, x, VectorKey, k, MatchScore);
  }

  lemma MeanOfThree(mean: real, sum: real, count: nat)
    requires count == 3 && sum == 1.2 && mean == sum / count as real
    ensures mean == 0.4
  {
  }

  // ---------------------------------------------------------------------------
  // uniqueDocMatches

  /** The group held for key `k` after reading `s`: first match's fields (rank included), NaN rank sum, count. */
  function RunningDocGroup(s: seq<DocMatch>, k: string): DocGroup
    requires HasKey(s, DocKey, k)
  {
    var f := FirstWith(s, DocKey, k);
    DocGroup(f.id, f.docId, f.text, Num(f.rank), NaN, Count(s, DocKey, k))
  }

  /** The output entry for key `k`: `rank` becomes `rankSum / count`. */
  function FinalDocGroup(s: seq<DocMatch>, k: string): DocGroup
    requires HasKey(s, DocKey, k)
  {
    var g := RunningDocGroup(s, k);
    g.(rank := DivCount(g.rankSum, g.count))
  }

  /** One group per distinct `docId_id` key, in order of first occurrence. */
  function GroupedDocs(s: seq<DocMatch>): seq<DocGroup> {
    var keys := KeyOrder(s, DocKey);
    seq(|keys|, j requires 0 <= j < |keys| => FinalDocGroup(s, keys[j]))
  }

  /** The comparator `(a, b) => Math.abs(b.rank) - Math.abs(a.rank)`. */
  function ByAbsRankDesc(a: DocGroup, b: DocGroup): Number {
    Sub(Abs(b.rank), Abs(a.rank))
  }

  /** What `uniqueDocMatches(items)` returns. */
  function UniqueDocs(items: seq<DocMatch>): seq<DocGroup> {
    Sort(GroupedDocs(items), ByAbsRankDesc)
  }

  /** `{...item, count: 1}`: the new group has no `rankSum` field, so it reads as undefined. */
  function StartDocGroup(x: DocMatch): DocGroup {
    DocGroup(x.id, x.docId, x.text, Num(x.rank), NaN, 1)
  }

  /** `group.rankSum += item.rank; group.count += 1`. */
  function AddToDocGroup(g: DocGroup, x: DocMatch): DocGroup {
    g.(rankSum := Add(g.rankSum, Num(x.rank)), count := g.count + 1)
  }

  /** The loop's `Map` (with its insertion order) holds the running group of every key read so far. */
  ghost predicate DocGroupsOf(groups: map<string, DocGroup>, order: seq<string>, s: seq<DocMatch>) {
    && order == KeyOrder(s, DocKey)
    && KeysInOrder(groups, order)
    && DocGroupsRunning(groups, s)
  }

  ghost predicate DocGroupsRunning(groups: map<string, DocGroup>, s: seq<DocMatch>) {
    forall k :: k in groups ==> HasKey(s, DocKey, k) && groups[k] == RunningDocGroup(s, k)
  }

  /** One iteration of the grouping loop keeps the groups equal to the running groups. */
  lemma DocGroupsStep(groups: map<string, DocGroup>, order: seq<string>, p: seq<DocMatch>, x: DocMatch)
    requires DocGroupsOf(groups, order, p)
    ensures var key := DocKey(x);
      if key !in groups then DocGroupsOf(groups[key := StartDocGroup(x)], order + [key], p + [x])
      else DocGroupsOf(groups[key := AddToDocGroup(groups[key], x)], order, p + [x])
  {
    var key := DocKey(x);
    AppendKeys(p, x, DocKey, key);
    assert key in groups <==> HasKey(p, DocKey, key);
    var g := if key in groups then AddToDocGroup(groups[key], x) else StartDocGroup(x);
    DocRunningStep(groups, p, x, g);
    KeysInOrderStep(groups, order, key, g);
  }

  /** Storing the updated group of `x`'s key keeps every group equal to its running group. */
  lemma DocRunningStep(groups: map<string, DocGroup>, p: seq<DocMatch>, x: DocMatch, g: DocGroup)
    requires DocGroupsRunning(groups, p)
    requires DocKey(x) in groups <==> HasKey(p, DocKey, DocKey(x))
    requires g == if DocKey(x) in groups then AddToDocGroup(groups[DocKey(x)], x) else StartDocGroup(x)
    ensures DocGroupsRunning(groups[DocKey(x) := g], p + [x])
  {
    var key := DocKey(x);
    RunningDocAppendSame(p, x);
    forall k | k in groups && k != key ensures HasKey(p + [x], DocKey, k) && RunningDocGroup(p + [x], k) == RunningDocGroup(p, k) {
      RunningDocAppendOther(p, x, k);
    }
  }

  lemma RunningDocAppendSame(p: seq<DocMatch>, x: DocMatch)
    ensures HasKey(p + [x], DocKey, DocKey(x))
    ensures RunningDocGroup(p + [x], DocKey(x)) ==
      if HasKey(p, DocKey, DocKey(x)) then AddToDocGroup(RunningDocGroup(p, DocKey(x)), x)
      else StartDocGroup(x)
  {
    var k := DocKey(x);
    AppendKeys(p, x, DocKey, k);
    AppendFirstLast(p, x, DocKey, k);
    var f' := FirstWith(p + [x], DocKey, k);
    var count' := Count(p + [x], DocKey, k);
    assert RunningDocGroup(p + [x], k) == DocGroup(f'.id, f'.docId, f'.text, Num(f'.rank), NaN, count');
    if HasKey(p, DocKey, k) {
      assert f' == FirstWith(p, DocKey, k);
      assert count' == Count(p, DocKey, k) + 1;
    } else {
      assert f' == x && count' == 1;
    }
  }

  lemma RunningDocAppendOther(p: seq<DocMatch>, x: DocMatch, k: string)
    requires HasKey(p, DocKey, k) && k != DocKey(x)
    ensures HasKey(p + [x], DocKey, k)
    ensures RunningDocGroup(p + [x], k) == RunningDocGroup(p, k)
  {
    AppendKeys(p, x, DocKey, k);
    AppendFirstLast(p, x, DocKey, k);
  }

  /** Group full-text matches by `docId_id`, counting repeats; the rank average is NaN. */
  method UniqueDocMatches(items: seq<DocMatch>) returns (r: seq<DocGroup>)
    ensures r == UniqueDocs(items)
  {
    var groups: map<string, DocGroup> := map[];
    var order: seq<string> := [];  // the Map's insertion order
    for i := 0 to |items|
      invariant DocGroupsOf(groups, order, items[..i])
    {
      var item := items[i];
      var key := DocKey(item);
      assert items[..i + 1] == items[..i] + [item];
      DocGroupsStep(groups, order, items[..i], item);
      if key !in groups {
        groups := groups[key := StartDocGroup(item)];
        order := order + [key];
      } else {
        var group := groups[key];
        groups := groups[key := AddToDocGroup(group, item)];
      }
    }
    assert items[..|items|] == items;
    var result := seq(|order|, j requires 0 <= j < |order| =>
      var g := groups[order[j]]; g.(rank := DivCount(g.rankSum, g.count)));
    assert result == GroupedDocs(items);
    r := Sort(result, ByAbsRankDesc);
  }

  /**
   * Because every averaged rank is NaN the comparator never reorders, so the
   * output is one entry per distinct `docId_id` key in order of first
   * occurrence, with the first match's fields, the number of occurrences as
   * `count`, and a NaN rank.
   */
  lemma {:induction false} UniqueDocsFirstOccurrence(items: seq<DocMatch>)
    ensures var r := UniqueDocs(items); var keys := KeyOrder(items, DocKey);
      && |r| == |keys|
      && forall j :: 0 <= j < |r| ==>
        var f := FirstWith(items, DocKey, keys[j]);
        && r[j].id == f.id && r[j].docId == f.docId && r[j].text == f.text
        && r[j].count == Count(items, DocKey, keys[j])
        && r[j].rank == NaN
  {
    var g := GroupedDocs(items);
    forall a, b | a in g && b in g ensures !After(ByAbsRankDesc(a, b)) {
      var i :| 0 <= i < |g| && g[i] == a;
      var j :| 0 <= j < |g| && g[j] == b;
    }
    SortNeverAfter(g, ByAbsRankDesc);
  }

  /** Each output entry's key occurs in the input, and no key occurs twice. */
  lemma UniqueDocsKeys(items: seq<DocMatch>)
    ensures DistinctBy(UniqueDocs(items), DocGroupKey)
    ensures forall k :: HasKey(UniqueDocs(items), DocGroupKey, k) <==> HasKey(items, DocKey, k)
  {
    UniqueDocsFirstOccurrence(items);
    var r := UniqueDocs(items);
    var keys := KeyOrder(items, DocKey);
    assert forall j :: 0 <= j < |r| ==> DocGroupKey(r[j]) == keys[j];
    forall k | HasKey(items, DocKey, k) ensures HasKey(r, DocGroupKey, k) {
      var j :| 0 <= j < |keys| && keys[j] == k;
    }
  }

  // ---------------------------------------------------------------------------
  // performReciprocalRankFusion

  /** What fusion reads of a de-duplicated hit: its id, document and text (never its score). */
  datatype Hit = Hit(id: string, docId: string, text: string)

  /** A fused candidate; `score` is a reciprocal-rank sum. */
  datatype Fused = Fused(docId: string, id: string, score: real, text: string)

  function HitId(h: Hit): string {
    h.id
  }

  function FusedId(f: Fused): string {
    f.id
  }

  function FusedScoreOf(f: Fused): real {
    f.score
  }

  /** The fusion constant `k`. */
  const K: real := 60.0
  /** Weight of the vector list's constant. */
  const VectorPenalty: real := 1.0
  /** How many fused candidates are kept. */
  const MaxCandidates: nat := 150

  function SqlHits(sql: seq<DocGroup>): seq<Hit> {
    seq(|sql|, i requires 0 <= i < |sql| => Hit(sql[i].id, sql[i].docId, sql[i].text))
  }

  function VectorHits(vs: seq<VectorGroup>): seq<Hit> {
    seq(|vs|, i requires 0 <= i < |vs| => Hit(vs[i].id, vs[i].docId, vs[i].text))
  }

  /** The fused score of `id`: `1 / (k + i)` summed over its full-text positions plus `1 / (k + j)` over its vector positions. */
  function FusedScore(sqlHits: seq<Hit>, vecHits: seq<Hit>, id: string): real {
    PositionScore(sqlHits, HitId, id, K) + PositionScore(vecHits, HitId, id, VectorPenalty * K)
  }

  /** The score-map entry of `id`: the last write wins, and vector writes come after full-text writes. */
  function FusedEntry(sqlHits: seq<Hit>, vecHits: seq<Hit>, id: string): Fused
    requires HasKey(sqlHits, HitId, id) || HasKey(vecHits, HitId, id)
  {
    var src := if HasKey(vecHits, HitId, id) then LastWith(vecHits, HitId, id) else LastWith(sqlHits, HitId, id);
    Fused(src.docId, id, FusedScore(sqlHits, vecHits, id), src.text)
  }

  /** `Object.entries(scores)`: one entry per id, in order of first insertion. */
  function FusedEntries(sqlHits: seq<Hit>, vecHits: seq<Hit>): seq<Fused> {
    var ids := KeyOrder(sqlHits + vecHits, HitId);
    seq(|ids|, j requires 0 <= j < |ids| =>
      HasKeyAppend(sqlHits, vecHits, HitId, ids[j]);
      FusedEntry(sqlHits, vecHits, ids[j]))
  }

  /** The comparator `(a, b) => b?.score - a?.score`. */
  function ByFusedScoreDesc(a: Fused, b: Fused): Number {
    Num(b.score - a.score)
  }

  /** Sort the entries by fused score, largest first, and keep the first 150. */
  function FuseHits(sqlHits: seq<Hit>, vecHits: seq<Hit>): seq<Fused> {
    var sorted := Sort(FusedEntries(sqlHits, vecHits), ByFusedScoreDesc);
    sorted[..if |sorted| < MaxCandidates then |sorted| else MaxCandidates]
  }

  /** What `performReciprocalRankFusion(fullTextResults, vectorResults)` returns. */
  function Fusion(fullText: seq<DocMatch>, vectorResults: seq<seq<VectorMatch>>): seq<Fused> {
    FuseHits(SqlHits(UniqueDocs(fullText)), VectorHits(UniqueVectors(Flatten(vectorResults))))
  }

  /** One entry per distinct id, each the entry its writes leave behind. */
  lemma FusedEntriesFacts(sqlHits: seq<Hit>, vecHits: seq<Hit>)
    ensures var e := FusedEntries(sqlHits, vecHits);
      && |e| == |KeyOrder(sqlHits + vecHits, HitId)|
      && DistinctBy(e, FusedId)
      && (forall f :: f in e ==> (HasKey(sqlHits, HitId, f.id) || HasKey(vecHits, HitId, f.id)) && f == FusedEntry(sqlHits, vecHits, f.id))
      && (forall id :: HasKey(sqlHits, HitId, id) || HasKey(vecHits, HitId, id) ==> FusedEntry(sqlHits, vecHits, id) in e)
  {
    var e := FusedEntries(sqlHits, vecHits);
    var ids := KeyOrder(sqlHits + vecHits, HitId);
    forall j | 0 <= j < |e| ensures e[j].id == ids[j] && (HasKey(sqlHits, HitId, ids[j]) || HasKey(vecHits, HitId, ids[j])) {
      assert ids[j] in ids;
      HasKeyAppend(sqlHits, vecHits, HitId, ids[j]);
    }
    forall id | HasKey(sqlHits, HitId, id) || HasKey(vecHits, HitId, id) ensures FusedEntry(sqlHits, vecHits, id) in e {
      HasKeyAppend(sqlHits, vecHits, HitId, id);
      var j :| 0 <= j < |ids| && ids[j] == id;
      assert e[j] == FusedEntry(sqlHits, vecHits, id);
    }
  }

  /**
   * The fused list holds one entry per id found in either list, up to 150 of
   * them, each scored by `FusedScore` and carrying the fields of its last
   * write, ordered by score, largest first.
   */
  lemma FuseHitsShape(sqlHits: seq<Hit>, vecHits: seq<Hit>)
    ensures var r := FuseHits(sqlHits, vecHits); var n := |KeyOrder(sqlHits + vecHits, HitId)|;
      && |r| == (if n < MaxCandidates then n else MaxCandidates)
      && DistinctBy(r, FusedId)
      && NonIncreasing(r, FusedScoreOf)
      && forall f :: f in r ==>
        && (HasKey(sqlHits, HitId, f.id) || HasKey(vecHits, HitId, f.id))
        && f == FusedEntry(sqlHits, vecHits, f.id)
  {
    var e := FusedEntries(sqlHits, vecHits);
    FusedEntriesFacts(sqlHits, vecHits);
    var sorted := Sort(e, ByFusedScoreDesc);
    SortDistinctBy(e, ByFusedScoreDesc, FusedId);
    SortNonIncreasing(e, ByFusedScoreDesc, FusedScoreOf);
    var r := FuseHits(sqlHits, vecHits);
    assert r == sorted[..|r|];
    forall f | f in r ensures f in e {
      SortSameElements(e, ByFusedScoreDesc, f);
    }
  }

  /** Truncation keeps the best: an id that is dropped scores no more than any id that is kept. */
  lemma FuseHitsKeepsBest(sqlHits: seq<Hit>, vecHits: seq<Hit>, id: string)
    requires HasKey(sqlHits, HitId, id) || HasKey(vecHits, HitId, id)
    requires forall f :: f in FuseHits(sqlHits, vecHits) ==> f.id != id
    ensures forall f :: f in FuseHits(sqlHits, vecHits) ==> FusedScore(sqlHits, vecHits, id) <= f.score
  {
    var e := FusedEntries(sqlHits, vecHits);
    FusedEntriesFacts(sqlHits, vecHits);
    var sorted := Sort(e, ByFusedScoreDesc);
    SortNonIncreasing(e, ByFusedScoreDesc, FusedScoreOf);
    var x := FusedEntry(sqlHits, vecHits, id);
    SortSameElements(e, ByFusedScoreDesc, x);
    var r := FuseHits(sqlHits, vecHits);
    assert r == sorted[..|r|];
    PrefixKeepsBest(sorted, |r|, FusedScoreOf, x);
  }

  /**
   * An id ranked first in both lists outscores an id that occurs only once
   * overall: `2 / 60` against at most `1 / 61`.
   */
  lemma FusedOverlapWins(sqlHits: seq<Hit>, vecHits: seq<Hit>, a: string, b: string)
    requires |sqlHits| > 0 && |vecHits| > 0
    requires HitId(sqlHits[0]) == a && HitId(vecHits[0]) == a && b != a
    requires Count(sqlHits, HitId, b) + Count(vecHits, HitId, b) <= 1
    ensures FusedScore(sqlHits, vecHits, a) > FusedScore(sqlHits, vecHits, b)
  {
    FusedHeadBound(sqlHits, vecHits, a);
    FusedOnceBound(sqlHits, vecHits, b);
  }

  /** An id ranked first in both lists scores at least `1 / 60 + 1 / 60`. */
  lemma FusedHeadBound(sqlHits: seq<Hit>, vecHits: seq<Hit>, a: string)
    requires |sqlHits| > 0 && |vecHits| > 0
    requires HitId(sqlHits[0]) == a && HitId(vecHits[0]) == a
    ensures FusedScore(sqlHits, vecHits, a) >= 2.0 / 60.0
  {
    PositionScoreHeadBound(sqlHits, HitId, a, 60.0);
    PositionScoreHeadBound(vecHits, HitId, a, 60.0);
  }

  /** An id that occurs at most once overall, and never first, scores at most `1 / 61`. */
  lemma FusedOnceBound(sqlHits: seq<Hit>, vecHits: seq<Hit>, b: string)
    requires |sqlHits| > 0 && |vecHits| > 0
    requires HitId(sqlHits[0]) != b && HitId(vecHits[0]) != b
    requires Count(sqlHits, HitId, b) + Count(vecHits, HitId, b) <= 1
    ensures FusedScore(sqlHits, vecHits, b) <= 1.0 / 61.0
  {
    PositionScoreTailBound(sqlHits, HitId, b, 60.0);
    PositionScoreTailBound(vecHits, HitId, b, 60.0);
    if Count(sqlHits, HitId, b) == 0 {
      PositionScoreAbsent(sqlHits, HitId, b, 60.0);
    } else {
      PositionScoreAbsent(vecHits, HitId, b, 60.0);
    }
  }

  /**
   * Fused scores depend on list positions only: two pairs of lists with the
   * same ids at the same positions give every id the same score, whatever the
   * matches' own scores or texts.
   */
  lemma FusedScorePositional(sqlHits: seq<Hit>, vecHits: seq<Hit>, sqlHits': seq<Hit>, vecHits': seq<Hit>, id: string)
    requires |sqlHits| == |sqlHits'| && forall i :: 0 <= i < |sqlHits| ==> sqlHits[i].id == sqlHits'[i].id
    requires |vecHits| == |vecHits'| && forall i :: 0 <= i < |vecHits| ==> vecHits[i].id == vecHits'[i].id
    ensures FusedScore(sqlHits, vecHits, id) == FusedScore(sqlHits', vecHits', id)
  {
    PositionScoreKeysOnly(sqlHits, HitId, sqlHits', HitId, id, K);
    PositionScoreKeysOnly(vecHits, HitId, vecHits', HitId, id, VectorPenalty * K);
  }

  /** The score object holds, for every id written so far, the entry the writes leave behind; `order` is its property order. */
  ghost predicate FusedOf(scores: map<string, Fused>, order: seq<string>, sqlHits: seq<Hit>, vecHits: seq<Hit>) {
    && order == KeyOrder(sqlHits + vecHits, HitId)
    && KeysInOrder(scores, order)
    && FusedRunning(scores, sqlHits, vecHits)
  }

  ghost predicate FusedRunning(scores: map<string, Fused>, sqlHits: seq<Hit>, vecHits: seq<Hit>) {
    forall k :: k in scores ==>
      (HasKey(sqlHits, HitId, k) || HasKey(vecHits, HitId, k)) && scores[k] == FusedEntry(sqlHits, vecHits, k)
  }

  /** `(scores[key]?.score || 0)`: the score already accumulated for `key`, or 0. */
  function Prior(scores: map<string, Fused>, key: string): real {
    if key in scores then scores[key].score else 0.0
  }

  /** The entry `{id, docId, text, score: prior + 1 / (base + index)}` written for `x`. */
  function Written(scores: map<string, Fused>, x: Hit, base: real, index: nat): Fused
    requires base > 0.0
  {
    Fused(x.docId, x.id, Prior(scores, x.id) + 1.0 / (base + index as real), x.text)
  }

  /** The write `scores[x.id] = …`. */
  function Write(scores: map<string, Fused>, x: Hit, base: real, index: nat): map<string, Fused>
    requires base > 0.0
  {
    scores[x.id := Written(scores, x, base, index)]
  }

  /** The property order after a write: a new id goes last. */
  function WriteOrder(scores: map<string, Fused>, order: seq<string>, x: Hit): seq<string> {
    if x.id in scores then order else order + [x.id]
  }

  /** One iteration of the full-text loop keeps the score object equal to the entries of the hits read so far. */
  lemma SqlWriteStep(scores: map<string, Fused>, order: seq<string>, p: seq<Hit>, x: Hit)
    requires FusedOf(scores, order, p, [])
    ensures FusedOf(Write(scores, x, K, |p|), WriteOrder(scores, order, x), p + [x], [])
  {
    assert p + [] == p && (p + [x]) + [] == p + [x];
    AppendKeys(p, x, HitId, x.id);
    assert x.id in scores <==> HasKey(p, HitId, x.id);
    SqlRunningStep(scores, p, x);
    KeysInOrderStep(scores, order, x.id, Written(scores, x, K, |p|));
  }

  lemma SqlRunningStep(scores: map<string, Fused>, p: seq<Hit>, x: Hit)
    requires FusedRunning(scores, p, [])
    requires x.id in scores <==> HasKey(p, HitId, x.id)
    ensures FusedRunning(Write(scores, x, K, |p|), p + [x], [])
  {
    SqlEntrySame(p, x);
    assert Write(scores, x, K, |p|)[x.id] == FusedEntry(p + [x], [], x.id);
    forall k | k in scores && k != x.id
      ensures HasKey(p + [x], HitId, k) && FusedEntry(p + [x], [], k) == FusedEntry(p, [], k)
    {
      assert HasKey(p, HitId, k) by {
        assert !HasKey([], HitId, k);
      }
      SqlEntryOther(p, x, k);
    }
  }

  lemma SqlEntrySame(p: seq<Hit>, x: Hit)
    ensures HasKey(p + [x], HitId, x.id)
    ensures FusedEntry(p + [x], [], x.id) ==
      Fused(x.docId, x.id, (if HasKey(p, HitId, x.id) then FusedScore(p, [], x.id) else 0.0) + 1.0 / (K + |p| as real), x.text)
  {
    var k := x.id;
    AppendFirstLast(p, x, HitId, k);
    AppendPosition(p, x, HitId, k, K);
    if !HasKey(p, HitId, k) {
      PositionScoreAbsent(p, HitId, k, K);
    }
    assert !HasKey([], HitId, k);
    assert PositionScore([], HitId, k, VectorPenalty * K) == 0.0;
    assert FusedScore(p + [x], [], k) == PositionScore(p, HitId, k, K) + 1.0 / (K + |p| as real);
  }

  lemma SqlEntryOther(p: seq<Hit>, x: Hit, k: string)
    requires HasKey(p, HitId, k) && k != x.id
    ensures HasKey(p + [x], HitId, k)
    ensures FusedEntry(p + [x], [], k) == FusedEntry(p, [], k)
  {
    AppendFirstLast(p, x, HitId, k);
    AppendPosition(p, x, HitId, k, K);
    assert !HasKey([], HitId, k);
  }

  /** One iteration of the vector loop keeps the score object equal to the entries of the hits read so far. */
  lemma VectorWriteStep(scores: map<string, Fused>, order: seq<string>, sqlHits: seq<Hit>, p: seq<Hit>, x: Hit)
    requires FusedOf(scores, order, sqlHits, p)
    ensures FusedOf(Write(scores, x, VectorPenalty * K, |p|), WriteOrder(scores, order, x), sqlHits, p + [x])
  {
    assert sqlHits + (p + [x]) == (sqlHits + p) + [x];
    AppendKeys(sqlHits + p, x, HitId, x.id);
    HasKeyAppend(sqlHits, p, HitId, x.id);
    assert x.id in scores <==> HasKey(sqlHits, HitId, x.id) || HasKey(p, HitId, x.id);
    VectorHitsRunningStep(scores, sqlHits, p, x);
    KeysInOrderStep(scores, order, x.id, Written(scores, x, VectorPenalty * K, |p|));
  }

  lemma VectorHitsRunningStep(scores: map<string, Fused>, sqlHits: seq<Hit>, p: seq<Hit>, x: Hit)
    requires FusedRunning(scores, sqlHits, p)
    requires x.id in scores <==> HasKey(sqlHits, HitId, x.id) || HasKey(p, HitId, x.id)
    ensures FusedRunning(Write(scores, x, VectorPenalty * K, |p|), sqlHits, p + [x])
  {
    VectorEntrySame(sqlHits, p, x);
    assert Write(scores, x, VectorPenalty * K, |p|)[x.id] == FusedEntry(sqlHits, p + [x], x.id);
    forall k | k in scores && k != x.id
      ensures (HasKey(sqlHits, HitId, k) || HasKey(p + [x], HitId, k)) && FusedEntry(sqlHits, p + [x], k) == FusedEntry(sqlHits, p, k)
    {
      VectorEntryOther(sqlHits, p, x, k);
    }
  }

  lemma VectorEntrySame(sqlHits: seq<Hit>, p: seq<Hit>, x: Hit)
    ensures HasKey(p + [x], HitId, x.id)
    ensures FusedEntry(sqlHits, p + [x], x.id) ==
      Fused(x.docId, x.id,
        (if HasKey(sqlHits, HitId, x.id) || HasKey(p, HitId, x.id) then FusedScore(sqlHits, p, x.id) else 0.0)
          + 1.0 / (VectorPenalty * K + |p| as real),
        x.text)
  {
    var k := x.id;
    AppendFirstLast(p, x, HitId, k);
    AppendPosition(p, x, HitId, k, VectorPenalty * K);
    if !HasKey(sqlHits, HitId, k) && !HasKey(p, HitId, k) {
      PositionScoreAbsent(sqlHits, HitId, k, K);
      PositionScoreAbsent(p, HitId, k, VectorPenalty * K);
    }
  }

  lemma VectorEntryOther(sqlHits: seq<Hit>, p: seq<Hit>, x: Hit, k: string)
    requires (HasKey(sqlHits, HitId, k) || HasKey(p, HitId, k)) && k != x.id
    ensures HasKey(sqlHits, HitId, k) || HasKey(p + [x], HitId, k)
    ensures FusedEntry(sqlHits, p + [x], k) == FusedEntry(sqlHits, p, k)
  {
    AppendPosition(p, x, HitId, k, VectorPenalty * K);
    LastWithAppendOther(p, x, HitId, k);
  }

  /** Once all writes are done, the object's entries in property order are `FusedEntries`. */
  lemma FusedEntriesOf(scores: map<string, Fused>, order: seq<string>, sqlHits: seq<Hit>, vecHits: seq<Hit>)
    requires FusedOf(scores, order, sqlHits, vecHits)
    ensures forall n :: 0 <= n < |order| ==> order[n] in scores
    ensures seq(|order|, n requires 0 <= n < |order| => scores[order[n]]) == FusedEntries(sqlHits, vecHits)
  {
    assert forall n :: 0 <= n < |order| ==> order[n] in order;
  }

  /** Fuse the de-duplicated full-text and vector matches by reciprocal rank and keep the best 150. */
  method PerformReciprocalRankFusion(fullText: seq<DocMatch>, vectorResults: seq<seq<VectorMatch>>) returns (r: seq<Fused>)
    ensures r == Fusion(fullText, vectorResults)
  {
    var vectors := UniqueVectorMatches(Flatten(vectorResults));
    var sql := UniqueDocMatches(fullText);
    r := FuseRanked(sql, vectors);
  }

  /** The scoring, sorting and truncation steps of `performReciprocalRankFusion`, on de-duplicated lists. */
  method FuseRanked(sql: seq<DocGroup>, vectors: seq<VectorGroup>) returns (r: seq<Fused>)
    ensures r == FuseHits(SqlHits(sql), VectorHits(vectors))
  {
    var scores, order := WriteSqlScores(sql);
    scores, order := WriteVectorScores(scores, order, SqlHits(sql), vectors);
    FusedEntriesOf(scores, order, SqlHits(sql), VectorHits(vectors));
    var res := seq(|order|, n requires 0 <= n < |order| => scores[order[n]]);
    var sorted := Sort(res, ByFusedScoreDesc);
    r := sorted[..if |sorted| < MaxCandidates then |sorted| else MaxCandidates];
  }

  /** The first loop: one write per full-text match, with base `k`. `order` is the property insertion order of `scores`. */
  method WriteSqlScores(sql: seq<DocGroup>) returns (scores: map<string, Fused>, order: seq<string>)
    ensures FusedOf(scores, order, SqlHits(sql), [])
  {
    ghost var sh := SqlHits(sql);
    scores, order := map[], [];
    assert sh[..0] + [] == [];
    for i := 0 to |sql|
      invariant FusedOf(scores, order, sh[..i], [])
    {
      // `scores[key] = {…, score: (scores[key]?.score || 0) + 1 / (k + index)}`; accumulated
      // scores are positive, so `|| 0` only replaces an absent entry
      var hit := Hit(sql[i].id, sql[i].docId, sql[i].text);
      assert sh[..i + 1] == sh[..i] + [hit];
      SqlWriteStep(scores, order, sh[..i], hit);
      scores, order := Write(scores, hit, K, i), WriteOrder(scores, order, hit);
    }
    assert sh[..|sql|] == sh;
  }

  /** The second loop: one write per vector match, with base `vectorPenalty * k`, after all full-text writes. */
  method WriteVectorScores(scores0: map<string, Fused>, order0: seq<string>, ghost sh: seq<Hit>, vectors: seq<VectorGroup>)
    returns (scores: map<string, Fused>, order: seq<string>)
    requires FusedOf(scores0, order0, sh, [])
    ensures FusedOf(scores, order, sh, VectorHits(vectors))
  {
    ghost var vh := VectorHits(vectors);
    scores, order := scores0, order0;
    assert vh[..0] == [];
    for j := 0 to |vectors|
      invariant FusedOf(scores, order, sh, vh[..j])
    {
      var hit := Hit(vectors[j].id, vectors[j].docId, vectors[j].text);
      assert vh[..j + 1] == vh[..j] + [hit];
      VectorWriteStep(scores, order, sh, vh[..j], hit);
      scores, order := Write(scores, hit, VectorPenalty * K, j), WriteOrder(scores, order, hit);
    }
    assert vh[..|vectors|] == vh;
  }

  // ---------------------------------------------------------------------------
  // reorderRerankedArray

  /** `source[index]`: the element at `index`, or `undefined` (None) outside the array. */
  function At<T>(source: seq<T>, index: int): (r: Option<T>)
    ensures r.Some? <==> 0 <= index < |source|
  {
    if 0 <= index < |source| then Some(source[index]) else None
  }

  /** Pick `source[indices[i]]` for each `i` in turn. */
  method ReorderRerankedArray<T>(source: seq<T>, indices: seq<int>) returns (r: seq<Option<T>>)
    ensures |r| == |indices|
    ensures forall i :: 0 <= i < |indices| ==> r[i] == At(source, indices[i])
  {
    r := [];
    for i := 0 to |indices|
      invariant |r| == i
      invariant forall j :: 0 <= j < i ==> r[j] == At(source, indices[j])
    {
      var index := indices[i];
      r := r + [At(source, index)];
    }
  }
}
