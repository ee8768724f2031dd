/** Building the prompt context from ranked chunks: app/retrieval/context/builder.py. */
module ContextBuilder {
  import opened Common
  import opened Rerank
  import opened StableSort

  datatype Settings = Settings(perVersionCap: int, expandToParent: bool, budget: int)

  datatype BuiltContext = BuiltContext(text: string, chunks: seq<RankedChunk>, tokenCount: nat)

  /** What two chunks must share to be counted together. */
  datatype Key =
    | ChunkKey(id: string)
    | ParentKey(parent: string)
    | VersionKey(product: Option<string>, version: Option<string>)

  predicate Truthy(o: Option<string>) {
    o.Some? && o.value != ""
  }

  function IdKey(c: RankedChunk): Key {
    ChunkKey(c.chunkId)
  }

  function GroupKey(c: RankedChunk): Key {
    VersionKey(c.product, c.version)
  }

  function CollapseKey(c: RankedChunk): Key {
    if Truthy(c.parentContent) && Truthy(c.parentChunkId) then ParentKey(c.parentChunkId.value) else ChunkKey(c.chunkId)
  }

  /** The text a chunk contributes: parent text first if expansion is on, then raw content, then text. */
  function Body(c: RankedChunk, expand: bool): string {
    if expand && Truthy(c.parentContent) then c.parentContent.value else Or(c.rawContent, c.text)
  }

  // ---- filters ---------------------------------------------------------------------------------

  function CountKey(chunks: seq<RankedChunk>, key: RankedChunk -> Key, k: Key): nat {
    if chunks == [] then 0
    else CountKey(chunks[..|chunks|-1], key, k) + if key(chunks[|chunks|-1]) == k then 1 else 0
  }

  /** The first `cap` chunks of each key, in order. */
  function FirstOfEach(chunks: seq<RankedChunk>, key: RankedChunk -> Key, cap: int): seq<RankedChunk> {
    if chunks == [] then []
    else
      var init, c := chunks[..|chunks|-1], chunks[|chunks|-1];
      FirstOfEach(init, key, cap) + if CountKey(init, key, key(c)) < cap then [c] else []
  }

  lemma CountSnoc(chunks: seq<RankedChunk>, c: RankedChunk, key: RankedChunk -> Key, k: Key)
    ensures CountKey(chunks + [c], key, k) == CountKey(chunks, key, k) + if key(c) == k then 1 else 0
  {
    assert (chunks + [c])[..|chunks|] == chunks;
  }

  lemma FirstOfEachSnoc(chunks: seq<RankedChunk>, key: RankedChunk -> Key, cap: int, other: RankedChunk -> Key, k: Key)
    requires chunks != []
    ensures var init, c := chunks[..|chunks|-1], chunks[|chunks|-1];
            CountKey(FirstOfEach(chunks, key, cap), other, k) ==
            CountKey(FirstOfEach(init, key, cap), other, k) +
            if CountKey(init, key, key(c)) < cap && other(c) == k then 1 else 0
  {
    hide CountKey;
    var init, c := chunks[..|chunks|-1], chunks[|chunks|-1];
    var kept := FirstOfEach(init, key, cap);
    CountSnoc(kept, c, other, k);
    assert kept + [] == kept;
  }

  lemma {:induction false} FirstOfEachCounts(chunks: seq<RankedChunk>, key: RankedChunk -> Key, cap: int, k: Key)
    ensures CountKey(FirstOfEach(chunks, key, cap), key, k) ==
            if cap <= 0 then 0 else if CountKey(chunks, key, k) < cap then CountKey(chunks, key, k) else cap
  {
    hide CountKey, FirstOfEach;
    if chunks == [] {
      CountNothing(key, cap, key, k);
    } else {
      var init, c := chunks[..|chunks|-1], chunks[|chunks|-1];
      FirstOfEachCounts(init, key, cap, k);
      FirstOfEachSnoc(chunks, key, cap, key, k);
      CountSnoc(init, c, key, k);
      assert chunks == init + [c];
    }
  }

  lemma CountNothing(key: RankedChunk -> Key, cap: int, other: RankedChunk -> Key, k: Key)
    ensures CountKey([], other, k) == 0 && FirstOfEach([], key, cap) == []
  {
  }

  /** Chunks that already respect the cap are all kept. */
  lemma {:induction false} WithinCapIsKept(chunks: seq<RankedChunk>, key: RankedChunk -> Key, cap: int)
    requires forall k :: CountKey(chunks, key, k) <= cap
    ensures FirstOfEach(chunks, key, cap) == chunks
  {
    hide CountKey;
    if chunks != [] {
      var init, c := chunks[..|chunks|-1], chunks[|chunks|-1];
      assert chunks == init + [c];
      forall k ensures CountKey(init, key, k) <= cap { CountSnoc(init, c, key, k); }
      CountSnoc(init, c, key, key(c));
      WithinCapIsKept(init, key, cap);
    }
  }

  /** `_dedup`: the first chunk of each id. */
  method Dedup(ranked: seq<RankedChunk>) returns (result: seq<RankedChunk>)
    ensures result == FirstOfEach(ranked, IdKey, 1)
  {
    var seen: set<string> := {};
    result := [];
    for i := 0 to |ranked|
      invariant result == FirstOfEach(ranked[..i], IdKey, 1)
      invariant forall id :: id in seen <==> CountKey(ranked[..i], IdKey, ChunkKey(id)) > 0
    {
      var c := ranked[i];
      assert ranked[..i+1][..i] == ranked[..i];
      if c.chunkId !in seen {
        seen := seen + {c.chunkId};
        result := result + [c];
      }
    }
    assert ranked[..|ranked|] == ranked;
  }

  /** `_collapse_to_parents`: the best-ranked chunk of each parent. */
  method CollapseToParents(chunks: seq<RankedChunk>) returns (result: seq<RankedChunk>)
    ensures result == FirstOfEach(chunks, CollapseKey, 1)
  {
    var seen: set<Key> := {};
    result := [];
    for i := 0 to |chunks|
      invariant result == FirstOfEach(chunks[..i], CollapseKey, 1)
      invariant forall k :: k in seen <==> CountKey(chunks[..i], CollapseKey, k) > 0
    {
      var key := CollapseKey(chunks[i]);
      assert chunks[..i+1][..i] == chunks[..i];
      if key !in seen {
        seen := seen + {key};
        result := result + [chunks[i]];
      }
    }
    assert chunks[..|chunks|] == chunks;
  }

  /** `_apply_version_caps` */
  method ApplyVersionCaps(chunks: seq<RankedChunk>, cap: int) returns (result: seq<RankedChunk>)
    ensures result == FirstOfEach(chunks, GroupKey, cap)
  {
    var counts: map<Key, int> := map[];
    result := [];
    for i := 0 to |chunks|
      invariant result == FirstOfEach(chunks[..i], GroupKey, cap)
      invariant forall k :: if k in counts
                  then 0 < counts[k] <= CountKey(chunks[..i], GroupKey, k) &&
                      (counts[k] == CountKey(chunks[..i], GroupKey, k) || counts[k] >= cap)
                  else CountKey(chunks[..i], GroupKey, k) == 0 || cap <= 0
    {
      var key := GroupKey(chunks[i]);
      assert chunks[..i+1][..i] == chunks[..i];
      var count := if key in counts then counts[key] else 0;
      if count < cap {
        counts := counts[key := count + 1];
        result := result + [chunks[i]];
      }
    }
    assert chunks[..|chunks|] == chunks;
  }

  /** The candidates that compete for the budget. */
  function Filtered(s: Settings, ranked: seq<RankedChunk>, versionSpecified: bool): seq<RankedChunk> {
    var unique := FirstOfEach(ranked, IdKey, 1);
    var capped := if versionSpecified then unique else FirstOfEach(unique, GroupKey, s.perVersionCap);
    if s.expandToParent then FirstOfEach(capped, CollapseKey, 1) else capped
  }

  // ---- selection ---------------------------------------------------------------------------------

  /** The chunk reduced to its own text, as the code stores it when the parent text does not fit. */
  function OwnText(c: RankedChunk): RankedChunk {
    c.(parentContent := None, rawContent := None)
  }

  function Cost(s: Settings, count: string -> nat, c: RankedChunk): nat {
    count(Body(c, s.expandToParent))
  }

  /** What is selected for `c` when `used` tokens are taken: all of it, its own text, or nothing. */
  function Fit(s: Settings, count: string -> nat, used: nat, c: RankedChunk): Option<RankedChunk> {
    if used + Cost(s, count, c) <= s.budget then Some(c)
    else if s.expandToParent && Truthy(c.parentContent) && c.text != "" && used + count(c.text) <= s.budget
    then Some(OwnText(c))
    else None
  }

  function TotalCost(s: Settings, count: string -> nat, chunks: seq<RankedChunk>): nat {
    if chunks == [] then 0 else TotalCost(s, count, chunks[..|chunks|-1]) + Cost(s, count, chunks[|chunks|-1])
  }

  /** `selected` is, chunk by chunk, what fits of a prefix of `chunks`; the next chunk does not fit at all. */
  ghost predicate IsSelection(s: Settings, count: string -> nat, chunks: seq<RankedChunk>, selected: seq<RankedChunk>) {
    && |selected| <= |chunks|
    && (forall i :: 0 <= i < |selected| ==>
        Fit(s, count, TotalCost(s, count, selected[..i]), chunks[i]) == Some(selected[i]))
    && (|selected| < |chunks| ==> Fit(s, count, TotalCost(s, count, selected), chunks[|selected|]) == None)
  }

  /** The whole result of the selection loop is determined. */
  lemma {:induction false} SelectionIsUnique(s: Settings, count: string -> nat, chunks: seq<RankedChunk>,
                                             a: seq<RankedChunk>, b: seq<RankedChunk>, k: nat)
    requires IsSelection(s, count, chunks, a) && IsSelection(s, count, chunks, b)
    requires k <= |a| && k <= |b| && a[..k] == b[..k]
    ensures a == b
    decreases |chunks| - k
  {
    hide Fit, TotalCost;
    assert a[..|a|] == a && b[..|b|] == b;
    if k < |a| && k < |b| {
      assert a[..k+1] == a[..k] + [a[k]] && b[..k+1] == b[..k] + [b[k]];
      SelectionIsUnique(s, count, chunks, a, b, k + 1);
    }
  }

  lemma FitCost(s: Settings, count: string -> nat, used: nat, c: RankedChunk)
    requires Fit(s, count, used, c).Some?
    ensures used + Cost(s, count, Fit(s, count, used, c).value) <= s.budget
  {
  }

  /** The summed cost of the selected bodies stays within the budget. */
  lemma {:induction false} SelectionFitsBudget(s: Settings, count: string -> nat, chunks: seq<RankedChunk>,
                                               selected: seq<RankedChunk>)
    requires IsSelection(s, count, chunks, selected)
    ensures TotalCost(s, count, selected) <= if s.budget > 0 then s.budget else 0
  {
    if selected != [] {
      var n := |selected| - 1;
      FitCost(s, count, TotalCost(s, count, selected[..n]), chunks[n]);
    }
  }

  // ---- formatting ------------------------------------------------------------------------------------

  /** The keys in order of first occurrence. */
  function KeyOrder(chunks: seq<RankedChunk>): (order: seq<Key>)
    ensures forall k :: k in order <==> exists i :: 0 <= i < |chunks| && GroupKey(chunks[i]) == k
  {
    if chunks == [] then []
    else
      var order, k := KeyOrder(chunks[..|chunks|-1]), GroupKey(chunks[|chunks|-1]);
      if k in order then order else order + [k]
  }

  /** The chunks of one key, in order. */
  function Group(chunks: seq<RankedChunk>, k: Key): (group: seq<RankedChunk>)
    ensures forall i :: 0 <= i < |group| ==> GroupKey(group[i]) == k
  {
    if chunks == [] then []
    else Group(chunks[..|chunks|-1], k) + if GroupKey(chunks[|chunks|-1]) == k then [chunks[|chunks|-1]] else []
  }

  function GroupedBy(chunks: seq<RankedChunk>, order: seq<Key>): seq<RankedChunk> {
    if order == [] then [] else GroupedBy(chunks, order[..|order|-1]) + Group(chunks, order[|order|-1])
  }

  function Label(k: Key): string
    requires k.VersionKey?
  {
    var parts := (if Truthy(k.product) then [k.product.value] else []) +
                 (if Truthy(k.version) then ["v" + k.version.value] else []);
    var name := Join(parts, " ");
    "=== " + (if name != "" then name else "unknown version") + " ==="
  }

  function Part(c: RankedChunk, expand: bool): string {
    "[" + c.headingPath + "]\n" + Body(c, expand)
  }

  function PartsOf(chunks: seq<RankedChunk>, expand: bool): (parts: seq<string>)
    ensures |parts| == |chunks|
  {
    seq(|chunks|, i requires 0 <= i < |chunks| => Part(chunks[i], expand))
  }

  /** The parts for the first keys of the order: a label where there is more than one version, then the bodies. */
  function GroupParts(chunks: seq<RankedChunk>, order: seq<Key>, labelled: bool, expand: bool): seq<string>
    requires forall i :: 0 <= i < |order| ==> order[i].VersionKey?
  {
    if order == [] then []
    else
      var k := order[|order|-1];
      GroupParts(chunks, order[..|order|-1], labelled, expand) + (if labelled then [Label(k)] else []) +
          PartsOf(Group(chunks, k), expand)
  }

  lemma {:induction false} OrderIsOfVersions(chunks: seq<RankedChunk>)
    ensures forall i :: 0 <= i < |KeyOrder(chunks)| ==> KeyOrder(chunks)[i].VersionKey?
    ensures Distinct(KeyOrder(chunks))
  {
    if chunks != [] { OrderIsOfVersions(chunks[..|chunks|-1]); }
  }

  function Formatted(chunks: seq<RankedChunk>, versionSpecified: bool, expand: bool): string {
    OrderIsOfVersions(chunks);
    var order := KeyOrder(chunks);
    Join(GroupParts(chunks, order, !versionSpecified && |order| > 1, expand), "\n\n")
  }

  /** The first loop of `_format`: chunks by (product, version), keys in order of appearance. */
  method GroupByVersion(chunks: seq<RankedChunk>) returns (groups: map<Key, seq<RankedChunk>>, order: seq<Key>)
    ensures order == KeyOrder(chunks)
    ensures forall k :: k in order ==> k in groups && groups[k] == Group(chunks, k)
  {
    groups, order := map[], [];
    for i := 0 to |chunks|
      invariant order == KeyOrder(chunks[..i])
      invariant forall k :: k in groups <==> k in order
      invariant forall k :: k in groups ==> groups[k] == Group(chunks[..i], k)
    {
      var key := GroupKey(chunks[i]);
      assert chunks[..i+1][..i] == chunks[..i];
      if key !in groups {
        GroupAbsent(chunks[..i], key);
        groups := groups[key := []];
        order := order + [key];
      }
      groups := groups[key := groups[key] + [chunks[i]]];
    }
    assert chunks[..|chunks|] == chunks;
  }

  /** `_format` */
  method Format(chunks: seq<RankedChunk>, versionSpecified: bool, expand: bool) returns (text: string)
    ensures text == Formatted(chunks, versionSpecified, expand)
  {
    hide Group, Label, PartsOf;
    var groups, order := GroupByVersion(chunks);
    OrderIsOfVersions(chunks);
    var labelled := !versionSpecified && |order| > 1;
    var parts: seq<string> := [];
    for j := 0 to |order|
      invariant parts == GroupParts(chunks, order[..j], labelled, expand)
    {
      var key := order[j];
      assert order[..j+1][..j] == order[..j];
      ghost var before := parts;
      if labelled {
        parts := parts + [Label(key)];
      }
      assert parts == before + if labelled then [Label(key)] else [];
      parts := parts + PartsOf(groups[key], expand);
    }
    assert order[..|order|] == order;
    text := Join(parts, "\n\n");
  }

  lemma {:induction false} GroupAbsent(chunks: seq<RankedChunk>, k: Key)
    requires k !in KeyOrder(chunks)
    ensures Group(chunks, k) == []
  {
    if chunks != [] {
      GroupAbsent(chunks[..|chunks|-1], k);
      assert GroupKey(chunks[|chunks|-1]) != k;
    }
  }

  /** Grouping rearranges the chunks and loses none. */
  lemma {:induction false} GroupingKeepsChunks(chunks: seq<RankedChunk>, order: seq<Key>)
    requires Distinct(order)
    requires forall i :: 0 <= i < |chunks| ==> GroupKey(chunks[i]) in order
    ensures multiset(GroupedBy(chunks, order)) == multiset(chunks)
  {
    hide GroupedBy, KeyOrder, Group, GroupKey;
    if chunks == [] {
      GroupedNothing(order);
    } else {
      var init, c := chunks[..|chunks|-1], chunks[|chunks|-1];
      GroupingKeepsChunks(init, order);
      GroupedSnoc(init, c, order);
      assert chunks == init + [c];
    }
  }

  lemma {:induction false} GroupedNothing(order: seq<Key>)
    ensures GroupedBy([], order) == []
  {
    if order != [] { GroupedNothing(order[..|order|-1]); }
  }

  lemma {:induction false} GroupedSnoc(init: seq<RankedChunk>, c: RankedChunk, order: seq<Key>)
    requires Distinct(order)
    ensures multiset(GroupedBy(init + [c], order)) ==
            multiset(GroupedBy(init, order)) + if GroupKey(c) in order then multiset{c} else multiset{}
  {
    if order != [] {
      var rest, k := order[..|order|-1], order[|order|-1];
      GroupedSnoc(init, c, rest);
      assert (init + [c])[..|init|] == init;
      assert GroupKey(c) in order <==> GroupKey(c) in rest || GroupKey(c) == k;
      assert k !in rest;
    }
  }

  /** A group lists chunks in the order they were ranked. */
  lemma {:induction false} GroupKeepsOrder(chunks: seq<RankedChunk>, k: Key)
    ensures forall g :: g in Group(chunks, k) <==> g in chunks && GroupKey(g) == k
    ensures forall i, j :: 0 <= i < j < |Group(chunks, k)| ==>
        Precedes(chunks, Group(chunks, k)[i], Group(chunks, k)[j])
  {
    if chunks != [] {
      var init, c := chunks[..|chunks|-1], chunks[|chunks|-1];
      GroupKeepsOrder(init, k);
      var before, group := Group(init, k), Group(chunks, k);
      assert chunks == init + [c];
      forall i, j | 0 <= i < j < |group| ensures Precedes(chunks, group[i], group[j]) {
        if j < |before| {
          assert Precedes(init, before[i], before[j]);
          var p, q :| 0 <= p < q < |init| && init[p] == before[i] && init[q] == before[j];
          assert chunks[p] == group[i] && chunks[q] == group[j];
        } else {
          assert before[i] in init;
          var p :| 0 <= p < |init| && init[p] == before[i];
          assert chunks[p] == group[i] && chunks[|chunks|-1] == group[j];
        }
      }
    }
  }

  lemma {:induction false} PlainParts(chunks: seq<RankedChunk>, order: seq<Key>, expand: bool)
    requires forall i :: 0 <= i < |order| ==> order[i].VersionKey?
    ensures GroupParts(chunks, order, false, expand) == PartsOf(GroupedBy(chunks, order), expand)
  {
    hide PartsOf;
    if order == [] {
      PartsAppend([], [], expand);
    } else {
      var rest := order[..|order|-1];
      PlainParts(chunks, rest, expand);
      PartsAppend(GroupedBy(chunks, rest), Group(chunks, order[|order|-1]), expand);
      assert GroupParts(chunks, rest, false, expand) + [] == GroupParts(chunks, rest, false, expand);
    }
  }

  lemma PartsAppend(a: seq<RankedChunk>, b: seq<RankedChunk>, expand: bool)
    ensures PartsOf(a + b, expand) == PartsOf(a, expand) + PartsOf(b, expand)
    ensures PartsOf([], expand) == []
  {
    hide Part;
  }

  /** In the labelled text, group `g` is its label followed by its bodies, right behind the groups before it. */
  ghost predicate LabelledAt(chunks: seq<RankedChunk>, order: seq<Key>, expand: bool, g: nat)
    requires g < |order| && forall i :: 0 <= i < |order| ==> order[i].VersionKey?
  {
    var parts, at := GroupParts(chunks, order, true, expand), |GroupedBy(chunks, order[..g])| + g;
    var bodies := PartsOf(Group(chunks, order[g]), expand);
    at + 1 + |bodies| <= |parts| && parts[at] == Label(order[g]) && parts[at+1..at+1+|bodies|] == bodies
  }

  lemma {:induction false} LabelledLength(chunks: seq<RankedChunk>, order: seq<Key>, expand: bool)
    requires forall i :: 0 <= i < |order| ==> order[i].VersionKey?
    ensures |GroupParts(chunks, order, true, expand)| == |GroupedBy(chunks, order)| + |order|
  {
    hide Label, Group, PartsOf;
    if order != [] {
      LabelledLength(chunks, order[..|order|-1], expand);
    }
  }

  lemma LastGroup(chunks: seq<RankedChunk>, order: seq<Key>, expand: bool)
    requires order != [] && forall i :: 0 <= i < |order| ==> order[i].VersionKey?
    ensures GroupParts(chunks, order, true, expand) ==
      GroupParts(chunks, order[..|order|-1], true, expand) + [Label(order[|order|-1])]
      + PartsOf(Group(chunks, order[|order|-1]), expand)
  {
    hide Label, Group, PartsOf;
  }

  lemma SameSlice(before: seq<string>, more: seq<string>, from: nat, to: nat)
    requires from <= to <= |before| && before <= more
    ensures before[from..to] == more[from..to]
  {
  }

  lemma {:induction false} LabelledParts(chunks: seq<RankedChunk>, order: seq<Key>, expand: bool, g: nat)
    requires g < |order| && forall i :: 0 <= i < |order| ==> order[i].VersionKey?
    ensures LabelledAt(chunks, order, expand, g)
  {
    hide Label, Group, PartsOf, GroupParts, GroupedBy;
    var rest, k := order[..|order|-1], order[|order|-1];
    var before, bodies := GroupParts(chunks, rest, true, expand), PartsOf(Group(chunks, k), expand);
    LastGroup(chunks, order, expand);
    var parts := GroupParts(chunks, order, true, expand);
    if g < |rest| {
      LabelledParts(chunks, rest, expand, g);
      assert rest[..g] == order[..g];
      var at := |GroupedBy(chunks, order[..g])| + g;
      SameSlice(before, parts, at + 1, at + 1 + |PartsOf(Group(chunks, order[g]), expand)|);
    } else {
      LabelledLength(chunks, rest, expand);
      assert parts[|before|+1..] == bodies;
    }
  }

  /** Formatting prints every selected chunk once, group after group, ranking order inside each group. */
  lemma FormatIsStableGrouping(chunks: seq<RankedChunk>, expand: bool)
    ensures var order := KeyOrder(chunks);
            && Distinct(order)
            && multiset(GroupedBy(chunks, order)) == multiset(chunks)
            && (forall i :: 0 <= i < |order| ==> order[i].VersionKey?)
            && GroupParts(chunks, order, false, expand) == PartsOf(GroupedBy(chunks, order), expand)
            && |GroupParts(chunks, order, true, expand)| == |chunks| + |order|
            && (forall g: nat :: g < |order| ==> LabelledAt(chunks, order, expand, g))
            && forall k, i, j :: k in order && 0 <= i < j < |Group(chunks, k)| ==>
                 Precedes(chunks, Group(chunks, k)[i], Group(chunks, k)[j])
  {
    var order := KeyOrder(chunks);
    OrderIsOfVersions(chunks);
    GroupingKeepsChunks(chunks, order);
    PlainParts(chunks, order, expand);
    LabelledLength(chunks, order, expand);
    assert |multiset(GroupedBy(chunks, order))| == |multiset(chunks)|;
    forall g: nat | g < |order| ensures LabelledAt(chunks, order, expand, g) {
      LabelledParts(chunks, order, expand, g);
    }
    forall k, i, j | k in order && 0 <= i < j < |Group(chunks, k)|
      ensures Precedes(chunks, Group(chunks, k)[i], Group(chunks, k)[j])
    {
      GroupKeepsOrder(chunks, k);
    }
  }

  // ---- the builder -----------------------------------------------------------------------------------------

  /** What `build` returns, as a relation between its input and its output. */
  ghost predicate IsContext(s: Settings, count: string -> nat, ranked: seq<RankedChunk>, versionSpecified: bool,
                            built: BuiltContext) {
    && IsSelection(s, count, Filtered(s, ranked, versionSpecified), built.chunks)
    && built.tokenCount == TotalCost(s, count, built.chunks)
    && built.text == Formatted(built.chunks, versionSpecified, s.expandToParent)
  }

  /**
   `build`: the first of each id; of each product and version at most the cap, unless one was
   asked for; of each parent the first, if parents are shown; and of those the prefix that
   fits the budget.
   */
  method Build(s: Settings, count: string -> nat, ranked: seq<RankedChunk>, versionSpecified: bool)
    returns (built: BuiltContext, ghost unique: seq<RankedChunk>, ghost capped: seq<RankedChunk>,
             ghost candidates: seq<RankedChunk>, ghost used: seq<nat>)
    ensures IsContext(s, count, ranked, versionSpecified, built)
    ensures KeepsFirst(unique, ranked, SameId, 1)
    ensures if versionSpecified then capped == unique else KeepsFirst(capped, unique, SameVersion, s.perVersionCap)
    ensures if s.expandToParent then KeepsFirst(candidates, capped, SameParent, 1) else candidates == capped
    ensures SelectsPrefix(s, count, candidates, built.chunks, used) && built.tokenCount == used[|built.chunks|]
  {
    hide FirstOfEach, Formatted, KeepsFirst, SelectsPrefix, SameId, SameVersion, SameParent, IdKey, GroupKey,
         CollapseKey;
    var chunks := Dedup(ranked);
    unique := chunks;
    KeysTell();
    FirstOfEachKeeps(ranked, IdKey, SameId, 1);
    if !versionSpecified {
      FirstOfEachKeeps(chunks, GroupKey, SameVersion, s.perVersionCap);
      chunks := ApplyVersionCaps(chunks, s.perVersionCap);
    }
    capped := chunks;
    FirstOfEachKeeps(chunks, CollapseKey, SameParent, 1);
    if s.expandToParent {
      chunks := CollapseToParents(chunks);
    }
    candidates := chunks;
    assert chunks == Filtered(s, ranked, versionSpecified);
    var selected, total := Select(s, count, chunks);
    var text := Format(selected, versionSpecified, s.expandToParent);
    used := SelectionIs(s, count, chunks, selected);
    built := BuiltContext(text, selected, total);
  }

  /** What the keys of the filters tell apart. */
  lemma KeysTell()
    ensures forall a, b :: SameId(a, b) <==> IdKey(a) == IdKey(b)
    ensures forall a, b :: SameVersion(a, b) <==> GroupKey(a) == GroupKey(b)
    ensures forall a, b :: SameParent(a, b) <==> CollapseKey(a) == CollapseKey(b)
  {
  }

  /** The first `|selected|` chunks have been fitted one after the other. */
  ghost predicate FittedTo(s: Settings, count: string -> nat, chunks: seq<RankedChunk>, selected: seq<RankedChunk>) {
    |selected| <= |chunks| &&
    forall i :: 0 <= i < |selected| ==>
        Fit(s, count, TotalCost(s, count, selected[..i]), chunks[i]) == Some(selected[i])
  }

  lemma FitOneMore(s: Settings, count: string -> nat, chunks: seq<RankedChunk>, selected: seq<RankedChunk>,
                   d: RankedChunk)
    requires |selected| < |chunks| && FittedTo(s, count, chunks, selected)
    requires Fit(s, count, TotalCost(s, count, selected), chunks[|selected|]) == Some(d)
    ensures FittedTo(s, count, chunks, selected + [d])
    ensures TotalCost(s, count, selected + [d]) == TotalCost(s, count, selected) + Cost(s, count, d)
  {
    hide Fit;
    var more := selected + [d];
    assert more[..|selected|] == selected;
    forall i | 0 <= i < |more| ensures Fit(s, count, TotalCost(s, count, more[..i]), chunks[i]) == Some(more[i]) {
      if i < |selected| { assert more[..i] == selected[..i]; }
    }
  }

  /** The budget loop of `build`. */
  method Select(s: Settings, count: string -> nat, chunks: seq<RankedChunk>)
    returns (selected: seq<RankedChunk>, total: nat)
    ensures IsSelection(s, count, chunks, selected) && total == TotalCost(s, count, selected)
  {
    hide FittedTo, TotalCost;
    selected, total := [], 0;
    NothingFitted(s, count, chunks);
    for i := 0 to |chunks|
      invariant |selected| == i && total == TotalCost(s, count, selected)
      invariant FittedTo(s, count, chunks, selected)
    {
      var c := chunks[i];
      var cost := count(Body(c, s.expandToParent));
      if total + cost > s.budget {
        if s.expandToParent && Truthy(c.parentContent) && c.text != "" && total + count(c.text) <= s.budget {
          FitOneMore(s, count, chunks, selected, OwnText(c));
          selected := selected + [OwnText(c)];
          total := total + count(c.text);
        } else {
          FittedIsSelection(s, count, chunks, selected);
          return;
        }
      } else {
        FitOneMore(s, count, chunks, selected, c);
        selected := selected + [c];
        total := total + cost;
      }
    }
    FittedIsSelection(s, count, chunks, selected);
  }

  lemma NothingFitted(s: Settings, count: string -> nat, chunks: seq<RankedChunk>)
    ensures FittedTo(s, count, chunks, []) && TotalCost(s, count, []) == 0
  {
  }

  lemma FittedIsSelection(s: Settings, count: string -> nat, chunks: seq<RankedChunk>, selected: seq<RankedChunk>)
    requires FittedTo(s, count, chunks, selected)
    requires |selected| < |chunks| ==> Fit(s, count, TotalCost(s, count, selected), chunks[|selected|]) == None
    ensures IsSelection(s, count, chunks, selected)
  {
    hide Fit, TotalCost;
  }

  // ---- the rules, chunk by chunk ---------------------------------------------------------------------------

  predicate SameId(a: RankedChunk, b: RankedChunk) {
    a.chunkId == b.chunkId
  }

  predicate SameVersion(a: RankedChunk, b: RankedChunk) {
    a.product == b.product && a.version == b.version
  }

  /** The chunk can be shown as its parent. */
  predicate HasParentText(c: RankedChunk) {
    c.parentContent.Some? && c.parentContent.value != "" && c.parentChunkId.Some? && c.parentChunkId.value != ""
  }

  /** Two chunks of one parent, or the same chunk without one. */
  predicate SameParent(a: RankedChunk, b: RankedChunk) {
    if HasParentText(a) && HasParentText(b) then a.parentChunkId == b.parentChunkId
    else !HasParentText(a) && !HasParentText(b) && a.chunkId == b.chunkId
  }

  /** `kept` has, in order, each chunk with fewer than `cap` like it before it. */
  ghost predicate KeepsFirst(kept: seq<RankedChunk>, all: seq<RankedChunk>, like: (RankedChunk, RankedChunk) -> bool,
                             cap: int) {
    exists at :: Picks(kept, all, at) && forall i :: 0 <= i < |all| ==> (i in at <==> |Alike(all, like, i)| < cap)
  }

  ghost function Alike(all: seq<RankedChunk>, like: (RankedChunk, RankedChunk) -> bool, i: nat): set<nat>
    requires i < |all|
  {
    set l: nat | l < i && like(all[l], all[i])
  }

  /** The text a chunk is shown with: its parent's if expanded, else its raw content, else its own. */
  ghost predicate Shows(c: RankedChunk, expand: bool, text: string) {
    if expand && c.parentContent.Some? && c.parentContent.value != "" then text == c.parentContent.value
    else if c.rawContent.Some? && c.rawContent.value != "" then text == c.rawContent.value
    else text == c.text
  }

  lemma BodyShows(c: RankedChunk, expand: bool)
    ensures Shows(c, expand, Body(c, expand))
    ensures forall text :: Shows(c, expand, text) ==> text == Body(c, expand)
  {
  }

  /** The candidate is taken whole if its text fits, and else cut to its own text if that was its parent's and fits. */
  ghost predicate Takes(s: Settings, count: string -> nat, used: nat, c: RankedChunk, d: RankedChunk) {
    if forall text :: Shows(c, s.expandToParent, text) ==> used + count(text) <= s.budget then d == c
    else
      && Shrinks(s, count, used, c)
      && d == c.(parentContent := None, rawContent := None)
  }

  ghost predicate Shrinks(s: Settings, count: string -> nat, used: nat, c: RankedChunk) {
    && s.expandToParent && c.parentContent.Some? && c.parentContent.value != "" && c.text != ""
    && used + count(c.text) <= s.budget
  }

  /**
   The selection: `used[i]` tokens are taken before chunk `i`. Each candidate of a prefix is
   taken, and the next one neither fits nor shrinks.
   */
  ghost predicate SelectsPrefix(s: Settings, count: string -> nat, candidates: seq<RankedChunk>,
                                selected: seq<RankedChunk>, used: seq<nat>) {
    && |selected| <= |candidates| && |used| == |selected| + 1 && used[0] == 0
    && (forall i :: 0 <= i < |selected| ==> Takes(s, count, used[i], candidates[i], selected[i]))
    && (forall i, text :: 0 <= i < |selected| && Shows(selected[i], s.expandToParent, text) ==>
          used[i+1] == used[i] + count(text))
    && (|selected| < |candidates| ==>
          && !Shrinks(s, count, used[|selected|], candidates[|selected|])
          && forall text :: Shows(candidates[|selected|], s.expandToParent, text) ==>
               used[|selected|] + count(text) > s.budget)
  }

  lemma SelectionIs(s: Settings, count: string -> nat, candidates: seq<RankedChunk>, selected: seq<RankedChunk>)
    returns (used: seq<nat>)
    requires IsSelection(s, count, candidates, selected)
    ensures SelectsPrefix(s, count, candidates, selected, used) && used[|selected|] == TotalCost(s, count, selected)
  {
    hide Fit, Shows, TotalCost, Takes, Shrinks;
    used := seq(|selected| + 1, i requires 0 <= i <= |selected| => TotalCost(s, count, selected[..i]));
    assert selected[..|selected|] == selected;
    NothingCosts(s, count);
    forall i | 0 <= i < |selected| ensures Takes(s, count, used[i], candidates[i], selected[i]) {
      FitTakes(s, count, used[i], candidates[i]);
    }
    forall i, text | 0 <= i < |selected| && Shows(selected[i], s.expandToParent, text)
      ensures used[i+1] == used[i] + count(text)
    {
      BodyShows(selected[i], s.expandToParent);
      assert selected[..i+1][..i] == selected[..i];
      CostOneMore(s, count, selected[..i+1]);
    }
    if |selected| < |candidates| {
      FitTakes(s, count, used[|selected|], candidates[|selected|]);
    }
  }

  lemma FitTakes(s: Settings, count: string -> nat, used: nat, c: RankedChunk)
    ensures var fit := Fit(s, count, used, c);
      && (fit.Some? ==> Takes(s, count, used, c, fit.value))
      && (fit.None? ==> !Shrinks(s, count, used, c)
                        && forall text :: Shows(c, s.expandToParent, text) ==> used + count(text) > s.budget)
  {
    hide Body, Shows;
    BodyShows(c, s.expandToParent);
  }

  lemma NothingCosts(s: Settings, count: string -> nat)
    ensures TotalCost(s, count, []) == 0
  {
  }

  lemma CostOneMore(s: Settings, count: string -> nat, chunks: seq<RankedChunk>)
    requires chunks != []
    ensures TotalCost(s, count, chunks) ==
            TotalCost(s, count, chunks[..|chunks|-1]) + count(Body(chunks[|chunks|-1], s.expandToParent))
  {
  }

  // ---- the filters keep the first of each ------------------------------------------------------------------

  /** Counting by key is counting the positions that have it. */
  lemma {:induction false} CountIsPositions(chunks: seq<RankedChunk>, key: RankedChunk -> Key, k: Key)
    ensures CountKey(chunks, key, k) == |KeyPositions(chunks, key, k)|
  {
    if chunks != [] {
      var init := chunks[..|chunks|-1];
      CountIsPositions(init, key, k);
      if key(chunks[|chunks|-1]) == k {
        assert KeyPositions(chunks, key, k) == KeyPositions(init, key, k) + {|chunks| - 1};
      } else {
        assert KeyPositions(chunks, key, k) == KeyPositions(init, key, k);
      }
    }
  }

  ghost function KeyPositions(chunks: seq<RankedChunk>, key: RankedChunk -> Key, k: Key): set<nat> {
    set l: nat | l < |chunks| && key(chunks[l]) == k
  }

  lemma {:induction false} FirstOfEachAt(chunks: seq<RankedChunk>, key: RankedChunk -> Key, cap: int)
    returns (at: seq<nat>)
    ensures Picks(FirstOfEach(chunks, key, cap), chunks, at)
    ensures forall i :: 0 <= i < |chunks| ==> (i in at <==> |KeyPositions(chunks[..i], key, key(chunks[i]))| < cap)
  {
    hide Picks, CountKey, KeyPositions;
    if chunks == [] {
      at := [];
      NothingPicked<RankedChunk>();
    } else {
      var init, c := chunks[..|chunks|-1], chunks[|chunks|-1];
      at := FirstOfEachAt(init, key, cap);
      PickNext(FirstOfEach(init, key, cap), init, at, c);
      CountIsPositions(init, key, key(c));
      assert chunks == init + [c];
      assert forall i :: 0 <= i < |init| ==> init[..i] == chunks[..i];
      if CountKey(init, key, key(c)) < cap {
        at := at + [|init|];
      } else {
        assert FirstOfEach(chunks, key, cap) == FirstOfEach(init, key, cap);
      }
    }
  }

  lemma FirstOfEachKeeps(chunks: seq<RankedChunk>, key: RankedChunk -> Key, like: (RankedChunk, RankedChunk) -> bool,
                         cap: int)
    requires forall a, b :: like(a, b) <==> key(a) == key(b)
    ensures KeepsFirst(FirstOfEach(chunks, key, cap), chunks, like, cap)
  {
    hide FirstOfEach, Picks;
    var at := FirstOfEachAt(chunks, key, cap);
    forall i | 0 <= i < |chunks| ensures KeyPositions(chunks[..i], key, key(chunks[i])) == Alike(chunks, like, i) {
    }
  }

  // ---- the printed text ------------------------------------------------------------------------------------

  /** Labels are printed where no version was asked for and there is more than one. */
  ghost predicate Labelled(chunks: seq<RankedChunk>, versionSpecified: bool) {
    !versionSpecified && exists i, j :: 0 <= i < j < |chunks| && !SameVersion(chunks[i], chunks[j])
  }

  lemma OrderCounts(chunks: seq<RankedChunk>)
    ensures |KeyOrder(chunks)| > 1 <==> exists i, j :: 0 <= i < j < |chunks| && !SameVersion(chunks[i], chunks[j])
  {
    var order := KeyOrder(chunks);
    OrderIsOfVersions(chunks);
    hide KeyOrder;
    if |order| > 1 {
      assert order[0] in order && order[1] in order && order[0] != order[1];
      var i :| 0 <= i < |chunks| && GroupKey(chunks[i]) == order[0];
      var j :| 0 <= j < |chunks| && GroupKey(chunks[j]) == order[1];
      assert !SameVersion(chunks[if i < j then i else j], chunks[if i < j then j else i]);
    }
    if exists i, j :: 0 <= i < j < |chunks| && !SameVersion(chunks[i], chunks[j]) {
      var i, j :| 0 <= i < j < |chunks| && !SameVersion(chunks[i], chunks[j]);
      assert GroupKey(chunks[i]) in order && GroupKey(chunks[j]) in order;
      assert GroupKey(chunks[i]) != GroupKey(chunks[j]);
    }
  }

  /** The printed text is the parts by version, and what a part and a label look like. */
  lemma FormattedIs(chunks: seq<RankedChunk>, versionSpecified: bool, expand: bool)
    ensures forall i :: 0 <= i < |KeyOrder(chunks)| ==> KeyOrder(chunks)[i].VersionKey?
    ensures Formatted(chunks, versionSpecified, expand) ==
            Join(GroupParts(chunks, KeyOrder(chunks), Labelled(chunks, versionSpecified), expand), "\n\n")
  {
    hide Join, GroupParts, KeyOrder;
    OrderIsOfVersions(chunks);
    OrderCounts(chunks);
  }

  lemma PartShows(c: RankedChunk, expand: bool, text: string)
    requires Shows(c, expand, text)
    ensures Part(c, expand) == "[" + c.headingPath + "]\n" + text
  {
    BodyShows(c, expand);
  }

  /** A label names product and version, whichever there is. */
  lemma LabelNames(product: Option<string>, version: Option<string>)
    ensures Label(VersionKey(product, version)) ==
      if Truthy(product) && Truthy(version) then "=== " + product.value + " v" + version.value + " ==="
      else if Truthy(product) then "=== " + product.value + " ==="
      else if Truthy(version) then "=== v" + version.value + " ==="
      else "=== unknown version ==="
  {
    if Truthy(product) && Truthy(version) {
      var p, v := product.value, "v" + version.value;
      assert [p] + [v] == [p, v] && [p, v][..1] == [p];
      assert Join([p, v], " ") == p + " " + v;
      assert p + " " + v == p + " v" + version.value;
    } else if Truthy(product) {
      assert [product.value] + [] == [product.value];
    } else if Truthy(version) {
      assert [] + ["v" + version.value] == ["v" + version.value];
    }
  }

  // ---- what the builder promises ---------------------------------------------------------------------------

  /** Without repeated ids in the input, deduplication changes nothing. */
  lemma DistinctIsUntouched(ranked: seq<RankedChunk>)
    requires DistinctChunks(ranked)
    ensures FirstOfEach(ranked, IdKey, 1) == ranked
  {
    forall k ensures CountKey(ranked, IdKey, k) <= 1 { DistinctCount(ranked, k); }
    WithinCapIsKept(ranked, IdKey, 1);
  }

  lemma {:induction false} DistinctCount(ranked: seq<RankedChunk>, k: Key)
    requires DistinctChunks(ranked)
    ensures CountKey(ranked, IdKey, k) <= 1
    ensures CountKey(ranked, IdKey, k) == 1 ==> exists i :: 0 <= i < |ranked| && IdKey(ranked[i]) == k
  {
    if ranked != [] {
      var init := ranked[..|ranked|-1];
      DistinctCount(init, k);
      if CountKey(init, IdKey, k) == 1 {
        var i :| 0 <= i < |init| && IdKey(init[i]) == k;
        assert IdKey(ranked[i]) == k;
      }
    }
  }

  /** A chunk of the selection differs from its candidate only in the texts it carries. */
  predicate SameChunk(a: RankedChunk, b: RankedChunk) {
    a.chunkId == b.chunkId && a.product == b.product && a.version == b.version
  }

  /** Keys that a selection cannot change are counted no more often than among the candidates. */
  lemma {:induction false} SelectedCounts(chunks: seq<RankedChunk>, selected: seq<RankedChunk>, k: Key)
    requires |selected| <= |chunks| && forall i :: 0 <= i < |selected| ==> SameChunk(selected[i], chunks[i])
    ensures CountKey(selected, IdKey, k) <= CountKey(chunks, IdKey, k)
    ensures CountKey(selected, GroupKey, k) <= CountKey(chunks, GroupKey, k)
    decreases |chunks|
  {
    if |selected| < |chunks| {
      SelectedCounts(chunks[..|chunks|-1], selected, k);
    } else if chunks != [] {
      assert SameChunk(selected[|selected|-1], chunks[|chunks|-1]);
      SelectedCounts(chunks[..|chunks|-1], selected[..|selected|-1], k);
    }
  }

  lemma FitIsSame(s: Settings, count: string -> nat, used: nat, c: RankedChunk)
    requires Fit(s, count, used, c).Some?
    ensures SameChunk(Fit(s, count, used, c).value, c)
    ensures Fit(s, count, used, c).value == c || (s.expandToParent && Fit(s, count, used, c).value == OwnText(c))
  {
  }

  /** What was selected once is selected whole the second time. */
  lemma SelectedFitsAgain(s: Settings, count: string -> nat, used: nat, c: RankedChunk)
    requires Fit(s, count, used, c).Some?
    ensures var d := Fit(s, count, used, c).value; Fit(s, count, used, d) == Some(d)
  {
  }

  /** `FirstOfEach` of anything bounded is idempotent on its counts. */
  lemma CountsBounded(ranked: seq<RankedChunk>, s: Settings, versionSpecified: bool, k: Key)
    ensures var f := Filtered(s, ranked, versionSpecified);
            && CountKey(f, IdKey, k) <= 1
            && (!versionSpecified ==> CountKey(f, GroupKey, k) <= if s.perVersionCap > 0 then s.perVersionCap else 0)
            && (s.expandToParent ==> CountKey(f, CollapseKey, k) <= 1)
  {
    var unique := FirstOfEach(ranked, IdKey, 1);
    var capped := if versionSpecified then unique else FirstOfEach(unique, GroupKey, s.perVersionCap);
    FirstOfEachCounts(ranked, IdKey, 1, k);
    FirstOfEachCounts(unique, GroupKey, s.perVersionCap, k);
    FirstOfEachCounts(capped, CollapseKey, 1, k);
    SubsequenceCounts(unique, GroupKey, s.perVersionCap, IdKey, k);
    SubsequenceCounts(capped, CollapseKey, 1, IdKey, k);
    SubsequenceCounts(capped, CollapseKey, 1, GroupKey, k);
  }

  lemma {:induction false} SubsequenceCounts(chunks: seq<RankedChunk>, key: RankedChunk -> Key, cap: int,
                                             other: RankedChunk -> Key, k: Key)
    ensures CountKey(FirstOfEach(chunks, key, cap), other, k) <= CountKey(chunks, other, k)
  {
    hide CountKey, FirstOfEach;
    if chunks == [] {
      CountNothing(key, cap, other, k);
    } else {
      var init, c := chunks[..|chunks|-1], chunks[|chunks|-1];
      SubsequenceCounts(init, key, cap, other, k);
      FirstOfEachSnoc(chunks, key, cap, other, k);
      CountSnoc(init, c, other, k);
      assert chunks == init + [c];
    }
  }

  /** No version exceeds its cap in the built context. */
  lemma CapsHold(s: Settings, count: string -> nat, ranked: seq<RankedChunk>, versionSpecified: bool,
                 built: BuiltContext, k: Key)
    requires IsContext(s, count, ranked, versionSpecified, built) && !versionSpecified
    ensures CountKey(built.chunks, GroupKey, k) <= if s.perVersionCap > 0 then s.perVersionCap else 0
  {
    hide Filtered, Formatted;
    CountsBounded(ranked, s, versionSpecified, k);
    SelectionIsSame(s, count, Filtered(s, ranked, versionSpecified), built.chunks);
    SelectedCounts(Filtered(s, ranked, versionSpecified), built.chunks, k);
  }

  lemma SelectionIsSame(s: Settings, count: string -> nat, chunks: seq<RankedChunk>, selected: seq<RankedChunk>)
    requires IsSelection(s, count, chunks, selected)
    ensures forall i :: 0 <= i < |selected| ==> SameChunk(selected[i], chunks[i])
    ensures forall i :: 0 <= i < |selected| ==>
              selected[i] == chunks[i] || (s.expandToParent && selected[i] == OwnText(chunks[i]))
  {
    hide Fit, TotalCost;
    forall i | 0 <= i < |selected|
      ensures SameChunk(selected[i], chunks[i]) &&
          (selected[i] == chunks[i] || (s.expandToParent && selected[i] == OwnText(chunks[i])))
    {
      FitIsSame(s, count, TotalCost(s, count, selected[..i]), chunks[i]);
    }
  }

  /** A chunk cut down to its own text collapses under its own id; whole ones keep their key. */
  lemma {:induction false} CollapseCounts(chunks: seq<RankedChunk>, selected: seq<RankedChunk>, k: Key)
    requires |selected| <= |chunks|
    requires forall i :: 0 <= i < |selected| ==> selected[i] == chunks[i] || selected[i] == OwnText(chunks[i])
    ensures k.ParentKey? ==> CountKey(selected, CollapseKey, k) <= CountKey(chunks, CollapseKey, k)
    ensures k.ChunkKey? ==> CountKey(selected, CollapseKey, k) <= CountKey(chunks, IdKey, k)
    ensures k.VersionKey? ==> CountKey(selected, CollapseKey, k) == 0
    decreases |chunks|
  {
    if |selected| < |chunks| {
      CollapseCounts(chunks[..|chunks|-1], selected, k);
    } else if chunks != [] {
      CollapseCounts(chunks[..|chunks|-1], selected[..|selected|-1], k);
    }
  }

  /** Filtering the selection again keeps all of it. */
  lemma SelectionSurvivesFilters(s: Settings, count: string -> nat, ranked: seq<RankedChunk>, versionSpecified: bool,
                                 selected: seq<RankedChunk>)
    requires IsSelection(s, count, Filtered(s, ranked, versionSpecified), selected)
    ensures Filtered(s, selected, versionSpecified) == selected
  {
    hide Filtered, IsSelection, CountKey, FirstOfEach;
    var chunks := Filtered(s, ranked, versionSpecified);
    SelectionIsSame(s, count, chunks, selected);
    SelectionLength(s, count, chunks, selected);
    forall k ensures CountKey(selected, IdKey, k) <= 1 {
      CountsBounded(ranked, s, versionSpecified, k);
      SelectedCounts(chunks, selected, k);
    }
    WithinCapIsKept(selected, IdKey, 1);
    if !versionSpecified {
      if s.perVersionCap > 0 {
        forall k ensures CountKey(selected, GroupKey, k) <= s.perVersionCap {
          CountsBounded(ranked, s, versionSpecified, k);
          SelectedCounts(chunks, selected, k);
        }
        WithinCapIsKept(selected, GroupKey, s.perVersionCap);
      } else {
        NothingUnderNoCap(s, ranked, selected, chunks);
      }
    }
    if s.expandToParent {
      forall k ensures CountKey(selected, CollapseKey, k) <= 1 {
        CountsBounded(ranked, s, versionSpecified, k);
        CollapseCounts(chunks, selected, k);
      }
      WithinCapIsKept(selected, CollapseKey, 1);
    }
    FilteredIs(s, selected, versionSpecified);
  }

  lemma FilteredIs(s: Settings, chunks: seq<RankedChunk>, versionSpecified: bool)
    requires FirstOfEach(chunks, IdKey, 1) == chunks
    requires !versionSpecified ==> FirstOfEach(chunks, GroupKey, s.perVersionCap) == chunks
    requires s.expandToParent ==> FirstOfEach(chunks, CollapseKey, 1) == chunks
    ensures Filtered(s, chunks, versionSpecified) == chunks
  {
    hide FirstOfEach;
  }

  lemma SelectionLength(s: Settings, count: string -> nat, chunks: seq<RankedChunk>, selected: seq<RankedChunk>)
    requires IsSelection(s, count, chunks, selected)
    ensures |selected| <= |chunks|
  {
  }

  lemma NothingUnderNoCap(s: Settings, ranked: seq<RankedChunk>, selected: seq<RankedChunk>, chunks: seq<RankedChunk>)
    requires s.perVersionCap <= 0 && chunks == Filtered(s, ranked, false) && |selected| <= |chunks|
    ensures FirstOfEach(selected, GroupKey, s.perVersionCap) == selected
  {
    hide CountKey, FirstOfEach, Filtered;
    if chunks != [] {
      CountsBounded(ranked, s, false, GroupKey(chunks[|chunks|-1]));
      LastCounts(chunks, GroupKey);
    }
    CountNothing(GroupKey, s.perVersionCap, GroupKey, ChunkKey(""));
  }

  lemma LastCounts(chunks: seq<RankedChunk>, key: RankedChunk -> Key)
    requires chunks != []
    ensures CountKey(chunks, key, key(chunks[|chunks|-1])) > 0
  {
  }

  /** Building again from the built chunks gives the same context. */
  lemma RebuildChangesNothing(s: Settings, count: string -> nat, ranked: seq<RankedChunk>, versionSpecified: bool,
                              built: BuiltContext, again: BuiltContext)
    requires IsContext(s, count, ranked, versionSpecified, built)
    requires IsContext(s, count, built.chunks, versionSpecified, again)
    ensures again == built
  {
    hide Filtered, Formatted, TotalCost, Fit;
    var selected := built.chunks;
    SelectionSurvivesFilters(s, count, ranked, versionSpecified, selected);
    forall i | 0 <= i < |selected|
      ensures Fit(s, count, TotalCost(s, count, selected[..i]), selected[i]) == Some(selected[i])
    {
      SelectedFitsAgain(s, count, TotalCost(s, count, selected[..i]), Filtered(s, ranked, versionSpecified)[i]);
    }
    assert selected[..0] == again.chunks[..0];
    SelectionIsUnique(s, count, selected, selected, again.chunks, 0);
  }
}
