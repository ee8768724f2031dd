/**
 Section building: `_build_sections` and `_find_section_id` of app/ingestion/pipeline.py.
 The builder finds section ends with a monotonic stack and parents through a
 dictionary from heading path to the last section that had it.
 */
module Sections {
  import opened Common
  import opened Ast

  datatype Section = Section(
    heading: string,
    headingPath: string,
    level: nat,
    order: nat,
    lineStart: int,
    lineEnd: int)

  // ---- reference definitions ----------------------------------------------

  /** First position from `m` on whose level is `level` or above (numerically at most). */
  function ScanFrom(levels: seq<nat>, level: nat, m: nat): (r: Option<nat>)
    ensures r.None? ==> forall k :: m <= k < |levels| ==> levels[k] > level
    ensures r.Some? ==> m <= r.value < |levels| && levels[r.value] <= level &&
                        forall k :: m <= k < r.value ==> levels[k] > level
    decreases |levels| - m
  {
    if m >= |levels| then None
    else if levels[m] <= level then Some(m)
    else ScanFrom(levels, level, m + 1)
  }

  /** The next heading of the same or a higher level, by a nested scan. */
  function NextSibling(levels: seq<nat>, i: nat): Option<nat>
    requires i < |levels|
  {
    ScanFrom(levels, levels[i], i + 1)
  }

  /** The nearest heading before `i`, looking back from `upTo`, strictly above level `level`. */
  function NearestAbove(levels: seq<nat>, level: nat, upTo: nat): (r: Option<nat>)
    requires upTo <= |levels|
    ensures r.None? ==> forall k :: 0 <= k < upTo ==> levels[k] >= level
    ensures r.Some? ==> r.value < upTo && levels[r.value] < level &&
                        forall k :: r.value < k < upTo ==> levels[k] >= level
  {
    if upTo == 0 then None
    else if levels[upTo-1] < level then Some(upTo - 1)
    else NearestAbove(levels, level, upTo - 1)
  }

  /** The last position before `upTo` that holds `path`: what a last-write-wins dictionary answers. */
  function LastWithPath(paths: seq<seq<string>>, upTo: nat, path: seq<string>): (r: Option<nat>)
    requires upTo <= |paths|
    ensures r.None? ==> forall k :: 0 <= k < upTo ==> paths[k] != path
    ensures r.Some? ==> r.value < upTo && paths[r.value] == path &&
                        forall k :: r.value < k < upTo ==> paths[k] != path
  {
    if upTo == 0 then None
    else if paths[upTo-1] == path then Some(upTo - 1)
    else LastWithPath(paths, upTo - 1, path)
  }

  /** `path[:-1]` */
  function ParentPath(path: seq<string>): seq<string> {
    if path == [] then [] else path[..|path|-1]
  }

  function PathsOf(headings: seq<Block>): (paths: seq<seq<string>>)
    ensures |paths| == |headings|
  {
    seq(|headings|, k requires 0 <= k < |headings| => headings[k].headingPath)
  }

  /** The last line of a section: the line before its next sibling, else the document's last line. */
  function SectionEnd(headings: seq<Block>, lastLine: int, i: nat): int
    requires i < |headings|
  {
    match NextSibling(Levels(headings), i)
    case Some(m) => headings[m].lineStart - 1
    case None => lastLine
  }

  function SectionFor(headings: seq<Block>, lastLine: int, i: nat): Section
    requires i < |headings|
  {
    var h := headings[i];
    Section(h.content, Join(h.headingPath, " / "),
            if h.level.Some? && h.level.value != 0 then h.level.value else 1,
            i, h.lineStart, SectionEnd(headings, lastLine, i))
  }

  ghost predicate IsLastLine(blocks: seq<Block>, line: int) {
    && (exists i :: 0 <= i < |blocks| && blocks[i].lineEnd == line)
    && (forall i :: 0 <= i < |blocks| ==> blocks[i].lineEnd <= line)
  }

  // ---- the code ------------------------------------------------------------

  method LastLine(blocks: seq<Block>) returns (line: int)
    requires blocks != []
    ensures IsLastLine(blocks, line)
  {
    line := blocks[0].lineEnd;
    for i := 1 to |blocks|
      invariant exists k :: 0 <= k < i && blocks[k].lineEnd == line
      invariant forall k :: 0 <= k < i ==> blocks[k].lineEnd <= line
    {
      if blocks[i].lineEnd > line {
        line := blocks[i].lineEnd;
      }
    }
  }

  /** The stack holds the headings before `index` that no later one has closed. */
  ghost predicate StackInv(levels: seq<nat>, index: nat, stack: seq<(nat, nat)>)
    requires index <= |levels|
  {
    && (forall q :: 0 <= q < |stack| ==> stack[q].1 < index && stack[q].0 == levels[stack[q].1])
    && (forall q, r :: 0 <= q < r < |stack| ==> stack[q].0 < stack[r].0 && stack[q].1 < stack[r].1)
    && (forall q, m :: 0 <= q < |stack| && stack[q].1 < m < index ==> levels[m] > stack[q].0)
  }

  ghost predicate OnStack(stack: seq<(nat, nat)>, k: nat) {
    exists q :: 0 <= q < |stack| && stack[q].1 == k
  }

  /** Headings before `index` are settled, or still on the stack with no answer yet. */
  ghost predicate Settled(levels: seq<nat>, index: nat, stack: seq<(nat, nat)>, next: seq<Option<nat>>)
    requires index <= |levels| == |next|
  {
    && (forall k :: 0 <= k < index ==> OnStack(stack, k) || (next[k].Some? && next[k] == NextSibling(levels, k)))
    && (forall q :: 0 <= q < |stack| && stack[q].1 < |next| ==> next[stack[q].1].None?)
  }

  lemma ScanFinds(levels: seq<nat>, level: nat, m: nat, found: nat)
    requires m <= found < |levels| && levels[found] <= level
    requires forall k :: m <= k < found ==> levels[k] > level
    ensures ScanFrom(levels, level, m) == Some(found)
  {
  }

  lemma SettlePopped(levels: seq<nat>, index: nat, stack: seq<(nat, nat)>, next: seq<Option<nat>>)
    requires index < |levels| == |next| && stack != []
    requires StackInv(levels, index, stack) && Settled(levels, index, stack, next)
    requires levels[index] <= stack[|stack|-1].0
    ensures Settled(levels, index, stack[..|stack|-1], next[stack[|stack|-1].1 := Some(index)])
  {
    var top := stack[|stack|-1];
    var rest, next' := stack[..|stack|-1], next[top.1 := Some(index)];
    ScanFinds(levels, top.0, top.1 + 1, index);
    forall k | 0 <= k < index ensures OnStack(rest, k) || (next'[k].Some? && next'[k] == NextSibling(levels, k)) {
      if k != top.1 && OnStack(stack, k) {
        var q :| 0 <= q < |stack| && stack[q].1 == k;
        assert rest[q].1 == k;
      }
    }
  }

  lemma PushKeepsOrder(levels: seq<nat>, index: nat, stack: seq<(nat, nat)>)
    requires index < |levels| && StackInv(levels, index, stack)
    requires stack != [] ==> stack[|stack|-1].0 < levels[index]
    ensures StackInv(levels, index + 1, stack + [(levels[index], index)])
  {
    var more := stack + [(levels[index], index)];
    forall q, r | 0 <= q < r < |more| ensures more[q].0 < more[r].0 && more[q].1 < more[r].1 {
      if r == |stack| && q < |stack| - 1 { assert stack[q].0 < stack[|stack|-1].0; }
    }
    forall q, m | 0 <= q < |more| && more[q].1 < m < index + 1 ensures levels[m] > more[q].0 {
      assert q < |stack|;
      if q < |stack| - 1 { assert stack[q].0 < stack[|stack|-1].0; }
    }
  }

  lemma PushKeepsSettled(levels: seq<nat>, index: nat, stack: seq<(nat, nat)>, next: seq<Option<nat>>)
    requires index < |levels| == |next| && Settled(levels, index, stack, next)
    requires next[index].None?
    ensures Settled(levels, index + 1, stack + [(levels[index], index)], next)
  {
    hide NextSibling;
    var more := stack + [(levels[index], index)];
    forall k | 0 <= k < index + 1 ensures OnStack(more, k) || (next[k].Some? && next[k] == NextSibling(levels, k)) {
      if k == index {
        assert more[|stack|].1 == k;
      } else if OnStack(stack, k) {
        var q :| 0 <= q < |stack| && stack[q].1 == k;
        assert more[q].1 == k;
      }
    }
  }

  /** One pass with a monotonic stack gives what a nested scan from each heading would. */
  method NextSiblings(headings: seq<Block>) returns (next: seq<Option<nat>>)
    ensures |next| == |headings|
    ensures forall i :: 0 <= i < |headings| ==> next[i] == NextSibling(Levels(headings), i)
  {
    hide NextSibling, StackInv, Settled;
    ghost var levels := Levels(headings);
    next := seq(|headings|, _ => None);
    var stack: seq<(nat, nat)> := [];
    NothingOnStack(levels, next);
    for index := 0 to |headings|
      invariant |next| == |headings|
      invariant StackInv(levels, index, stack) && Settled(levels, index, stack, next)
      invariant forall k :: index <= k < |next| ==> next[k].None?
    {
      var level := LevelOf(headings[index]);
      while stack != [] && stack[|stack|-1].0 >= level
        invariant |next| == |headings|
        invariant StackInv(levels, index, stack) && Settled(levels, index, stack, next)
        invariant forall k :: index <= k < |next| ==> next[k].None?
      {
        TopOfStack(levels, index, stack);
        SettlePopped(levels, index, stack, next);
        var popped := stack[|stack|-1].1;
        stack := stack[..|stack|-1];
        next := next[popped := Some(index)];
      }
      if stack != [] { TopOfStack(levels, index, stack); }
      PushKeepsOrder(levels, index, stack);
      PushKeepsSettled(levels, index, stack, next);
      stack := stack + [(level, index)];
    }
    AllSettled(levels, stack, next);
  }

  lemma NothingOnStack(levels: seq<nat>, next: seq<Option<nat>>)
    requires |next| == |levels|
    ensures StackInv(levels, 0, []) && Settled(levels, 0, [], next)
  {
  }

  /** Popping keeps the stack ordered; its top is a heading already read. */
  lemma TopOfStack(levels: seq<nat>, index: nat, stack: seq<(nat, nat)>)
    requires index <= |levels| && stack != [] && StackInv(levels, index, stack)
    ensures stack[|stack|-1].1 < index
    ensures StackInv(levels, index, stack[..|stack|-1])
  {
  }

  lemma AllSettled(levels: seq<nat>, stack: seq<(nat, nat)>, next: seq<Option<nat>>)
    requires |next| == |levels|
    requires StackInv(levels, |levels|, stack) && Settled(levels, |levels|, stack, next)
    ensures forall i :: 0 <= i < |levels| ==> next[i] == NextSibling(levels, i)
  {
    hide NextSibling;
    forall i | 0 <= i < |levels| ensures next[i] == NextSibling(levels, i) {
      if OnStack(stack, i) { OpenToTheEnd(levels, stack, i); }
    }
  }

  lemma OpenToTheEnd(levels: seq<nat>, stack: seq<(nat, nat)>, i: nat)
    requires StackInv(levels, |levels|, stack) && OnStack(stack, i)
    ensures i < |levels| && NextSibling(levels, i) == None
  {
    var q :| 0 <= q < |stack| && stack[q].1 == i;
    assert forall m :: i < m < |levels| ==> levels[m] > stack[q].0;
  }

  /** The dictionary maps each path among the first `upTo` to its last position. */
  ghost predicate Indexes(index: map<seq<string>, nat>, paths: seq<seq<string>>, upTo: nat)
    requires upTo <= |paths|
  {
    forall p :: Lookup(index, p) == LastWithPath(paths, upTo, p)
  }

  /** `index.get(p)` */
  function Lookup(index: map<seq<string>, nat>, p: seq<string>): Option<nat> {
    if p in index then Some(index[p]) else None
  }

  /** What the loop over the headings has appended after `order` of them. */
  ghost predicate BuiltTo(headings: seq<Block>, lastLine: int, order: nat,
                          sections: seq<Section>, parents: seq<Option<nat>>, paths: seq<seq<string>>)
    requires order <= |headings|
  {
    && |sections| == |parents| == order
    && paths == PathsOf(headings)[..order]
    && (forall i :: 0 <= i < order ==> sections[i] == SectionFor(headings, lastLine, i))
    && (forall i :: 0 <= i < order ==> parents[i] == ParentOf(PathsOf(headings), i))
  }

  /** The dictionary's answer for the parent path of heading `i`. */
  function ParentOf(paths: seq<seq<string>>, i: nat): Option<nat>
    requires i < |paths|
  {
    LastWithPath(paths, i, ParentPath(paths[i]))
  }

  lemma BuildOneMore(headings: seq<Block>, lastLine: int, order: nat, sections: seq<Section>,
                     parents: seq<Option<nat>>, paths: seq<seq<string>>, s: Section, parent: Option<nat>)
    requires order < |headings| && BuiltTo(headings, lastLine, order, sections, parents, paths)
    requires s == SectionFor(headings, lastLine, order) && parent == ParentOf(PathsOf(headings), order)
    ensures BuiltTo(headings, lastLine, order + 1, sections + [s], parents + [parent],
                    paths + [headings[order].headingPath])
  {
    hide SectionFor, ParentOf;
    assert PathsOf(headings)[..order+1] == PathsOf(headings)[..order] + [headings[order].headingPath];
  }

  lemma IndexOneMore(index: map<seq<string>, nat>, paths: seq<seq<string>>, upTo: nat)
    requires upTo < |paths| && Indexes(index, paths, upTo)
    ensures Indexes(index[paths[upTo] := upTo], paths, upTo + 1)
  {
    var index' := index[paths[upTo] := upTo];
    forall p ensures Lookup(index', p) == LastWithPath(paths, upTo + 1, p) {
      assert Lookup(index, p) == LastWithPath(paths, upTo, p);
    }
  }

  lemma IndexAnswers(index: map<seq<string>, nat>, paths: seq<seq<string>>, upTo: nat, p: seq<string>)
    requires upTo <= |paths| && Indexes(index, paths, upTo)
    ensures Lookup(index, p) == LastWithPath(paths, upTo, p)
  {
  }

  /** Sections, in parallel with parent positions and heading paths, for the headings of a document. */
  ghost predicate AreSectionsOf(blocks: seq<Block>, lastLine: int, sections: seq<Section>,
                                parents: seq<Option<nat>>, paths: seq<seq<string>>) {
    && BuiltTo(Headings(blocks), lastLine, |Headings(blocks)|, sections, parents, paths)
    && (Headings(blocks) != [] ==> IsLastLine(blocks, lastLine))
  }

  ghost predicate SectionsBuilt(blocks: seq<Block>, sections: seq<Section>, parents: seq<Option<nat>>,
                                paths: seq<seq<string>>) {
    exists lastLine :: AreSectionsOf(blocks, lastLine, sections, parents, paths)
  }

  /** `at` are the places of the headings among the blocks. */
  ghost predicate HeadingsAt(blocks: seq<Block>, at: seq<nat>) {
    && (forall k, l :: 0 <= k < l < |at| ==> at[k] < at[l])
    && (forall k :: 0 <= k < |at| ==> at[k] < |blocks| && blocks[at[k]].kind == HEADING)
    && (forall i :: 0 <= i < |blocks| && blocks[i].kind == HEADING ==> i in at)
  }

  /**
   The section of the `k`-th heading: its title, path, level and lines; it ends before the next
   heading of its level or above, or with the last line of the document. Its parent is the
   last section before it that has its path but for the title.
   */
  ghost predicate SectionFits(blocks: seq<Block>, at: seq<nat>, k: nat, s: Section, parent: Option<nat>,
                              path: seq<string>)
    requires HeadingsAt(blocks, at) && k < |at|
  {
    var h := blocks[at[k]];
    && s.heading == h.content && path == h.headingPath && s.headingPath == Join(path, " / ")
    && s.level == (if h.level == None || h.level == Some(0) then 1 else h.level.value)
    && s.order == k && s.lineStart == h.lineStart
    && EndFits(blocks, at, k, s.lineEnd) && ParentFits(blocks, at, k, parent)
  }

  ghost predicate EndFits(blocks: seq<Block>, at: seq<nat>, k: nat, end: int)
    requires HeadingsAt(blocks, at) && k < |at|
  {
    (exists m: nat :: IsNextSibling(blocks, at, k, m) && end == blocks[at[m]].lineStart - 1) ||
    ((forall m :: k < m < |at| ==> LevelOf(blocks[at[m]]) > LevelOf(blocks[at[k]])) && IsLastLine(blocks, end))
  }

  ghost predicate ParentFits(blocks: seq<Block>, at: seq<nat>, k: nat, parent: Option<nat>)
    requires HeadingsAt(blocks, at) && k < |at|
  {
    var path := blocks[at[k]].headingPath;
    var up := if path == [] then [] else path[..|path|-1];
    match parent
    case Some(m) => m < k && blocks[at[m]].headingPath == up &&
                    forall l :: m < l < k ==> blocks[at[l]].headingPath != up
    case None => forall l :: 0 <= l < k ==> blocks[at[l]].headingPath != up
  }

  /** Heading `m` is the first after heading `k` of the same level or above. */
  ghost predicate IsNextSibling(blocks: seq<Block>, at: seq<nat>, k: nat, m: nat)
    requires HeadingsAt(blocks, at) && k < |at|
  {
    k < m < |at| && LevelOf(blocks[at[m]]) <= LevelOf(blocks[at[k]]) &&
    forall l :: k < l < m ==> LevelOf(blocks[at[l]]) > LevelOf(blocks[at[k]])
  }

  lemma HeadingNext(blocks: seq<Block>, b: Block, at: seq<nat>)
    requires HeadingsAt(blocks, at)
    ensures HeadingsAt(blocks + [b], if b.kind == HEADING then at + [|blocks|] else at)
  {
    var more, all := blocks + [b], if b.kind == HEADING then at + [|blocks|] else at;
    forall k | 0 <= k < |all| ensures all[k] < |more| && more[all[k]].kind == HEADING {
      assert k < |at| ==> more[at[k]] == blocks[at[k]];
    }
    forall i | 0 <= i < |more| && more[i].kind == HEADING ensures i in all {
      if i < |blocks| {
        assert more[i] == blocks[i];
        var k :| 0 <= k < |at| && at[k] == i;
        assert all[k] == i;
      } else {
        assert all[|at|] == i;
      }
    }
  }

  lemma {:induction false} HeadingPlaces(blocks: seq<Block>) returns (at: seq<nat>)
    ensures HeadingsAt(blocks, at) && Picks(Headings(blocks), blocks, at)
  {
    hide Picks, HeadingsAt;
    if blocks == [] {
      at := [];
      NothingPicked<Block>();
      NoHeadings();
    } else {
      var init, b := blocks[..|blocks|-1], blocks[|blocks|-1];
      at := HeadingPlaces(init);
      PickNext(Headings(init), init, at, b);
      HeadingNext(init, b, at);
      assert blocks == init + [b];
      if b.kind == HEADING {
        at := at + [|init|];
      } else {
        assert Headings(blocks) == Headings(init);
      }
    }
  }

  lemma NoHeadings()
    ensures HeadingsAt([], [])
  {
  }

  /** `_build_sections` */
  method BuildSections(blocks: seq<Block>)
    returns (sections: seq<Section>, parents: seq<Option<nat>>, paths: seq<seq<string>>, ghost at: seq<nat>)
    ensures SectionsBuilt(blocks, sections, parents, paths)
    ensures HeadingsAt(blocks, at) && |sections| == |parents| == |paths| == |at|
    ensures forall k :: 0 <= k < |at| ==> SectionFits(blocks, at, k, sections[k], parents[k], paths[k])
  {
    hide SectionsBuilt, HeadingsAt, SectionFits;
    ghost var lastLine;
    sections, parents, paths, lastLine := BuildFrom(blocks);
    at := SectionsFit(blocks, lastLine, sections, parents, paths);
  }

  lemma SectionsFit(blocks: seq<Block>, lastLine: int, sections: seq<Section>, parents: seq<Option<nat>>,
                    paths: seq<seq<string>>)
    returns (at: seq<nat>)
    requires AreSectionsOf(blocks, lastLine, sections, parents, paths)
    ensures SectionsBuilt(blocks, sections, parents, paths)
    ensures HeadingsAt(blocks, at) && |sections| == |parents| == |paths| == |at|
    ensures forall k :: 0 <= k < |at| ==> SectionFits(blocks, at, k, sections[k], parents[k], paths[k])
  {
    hide HeadingsAt, IsLastLine, SectionFits, Join;
    at := HeadingPlaces(blocks);
    var headings := Headings(blocks);
    forall k | 0 <= k < |at| ensures SectionFits(blocks, at, k, sections[k], parents[k], paths[k]) {
      assert sections[k] == SectionFor(headings, lastLine, k) && parents[k] == ParentOf(PathsOf(headings), k);
      SectionForFits(blocks, lastLine, at, k);
    }
  }

  lemma SectionForFits(blocks: seq<Block>, lastLine: int, at: seq<nat>, k: nat)
    requires HeadingsAt(blocks, at) && Picks(Headings(blocks), blocks, at) && k < |at|
    requires IsLastLine(blocks, lastLine)
    ensures var headings := Headings(blocks);
      SectionFits(blocks, at, k, SectionFor(headings, lastLine, k), ParentOf(PathsOf(headings), k),
                  headings[k].headingPath)
  {
    hide HeadingsAt, EndFits, ParentFits, Join, ParentOf, SectionEnd, Headings;
    SectionEndFits(blocks, lastLine, at, k);
    ParentOfFits(blocks, at, k);
    assert Headings(blocks)[k] == blocks[at[k]];
  }

  lemma SectionEndFits(blocks: seq<Block>, lastLine: int, at: seq<nat>, k: nat)
    requires HeadingsAt(blocks, at) && Picks(Headings(blocks), blocks, at) && k < |at|
    requires IsLastLine(blocks, lastLine)
    ensures EndFits(blocks, at, k, SectionEnd(Headings(blocks), lastLine, k))
  {
    hide IsLastLine, ScanFrom, Headings;
    var levels := Levels(Headings(blocks));
    assert forall l :: 0 <= l < |at| ==> LevelOf(blocks[at[l]]) == levels[l];
    var next := NextSibling(levels, k);
    if next.Some? {
      assert IsNextSibling(blocks, at, k, next.value);
    }
  }

  lemma ParentOfFits(blocks: seq<Block>, at: seq<nat>, k: nat)
    requires HeadingsAt(blocks, at) && Picks(Headings(blocks), blocks, at) && k < |at|
    ensures ParentFits(blocks, at, k, ParentOf(PathsOf(Headings(blocks)), k))
  {
    hide LastWithPath, Headings;
    var paths := PathsOf(Headings(blocks));
    assert forall l :: 0 <= l < |at| ==> blocks[at[l]].headingPath == paths[l];
  }

  method BuildFrom(blocks: seq<Block>)
    returns (sections: seq<Section>, parents: seq<Option<nat>>, paths: seq<seq<string>>, ghost lastLine: int)
    ensures AreSectionsOf(blocks, lastLine, sections, parents, paths)
  {
    hide NextSibling, Join, Headings, BuiltTo, Indexes, ScanFrom, IsLastLine;
    var headings := Headings(blocks);
    sections, parents, paths := [], [], [];
    NothingBuilt(headings);
    if headings == [] {
      lastLine := 0;
      assert AreSectionsOf(blocks, 0, sections, parents, paths);
      return;
    }
    HeadingsComeFromBlocks(blocks);
    var last := LastLine(blocks);
    var next := NextSiblings(headings);
    var pathIndex: map<seq<string>, nat> := map[];
    for order := 0 to |headings|
      invariant BuiltTo(headings, last, order, sections, parents, paths)
      invariant Indexes(pathIndex, PathsOf(headings), order)
    {
      var h := headings[order];
      assert next[order] == NextSibling(Levels(headings), order);
      NextSiblingInRange(Levels(headings), order);
      var lineEnd := if next[order].Some? then headings[next[order].value].lineStart - 1 else last;
      var path := h.headingPath;
      var parent := Lookup(pathIndex, ParentPath(path));
      IndexAnswers(pathIndex, PathsOf(headings), order, ParentPath(path));
      IndexOneMore(pathIndex, PathsOf(headings), order);
      pathIndex := pathIndex[path := order];
      var level := if h.level.Some? && h.level.value != 0 then h.level.value else 1;
      var section := Section(h.content, Join(path, " / "), level, order, h.lineStart, lineEnd);
      BuildOneMore(headings, last, order, sections, parents, paths, section, parent);
      sections, parents, paths := sections + [section], parents + [parent], paths + [path];
    }
    lastLine := last;
    assert AreSectionsOf(blocks, last, sections, parents, paths);
  }

  lemma NothingBuilt(headings: seq<Block>)
    ensures forall last :: BuiltTo(headings, last, 0, [], [], [])
    ensures Indexes(map[], PathsOf(headings), 0)
  {
  }

  lemma NextSiblingInRange(levels: seq<nat>, i: nat)
    requires i < |levels|
    ensures NextSibling(levels, i).Some? ==> i < NextSibling(levels, i).value < |levels|
  {
  }

  lemma {:induction false} HeadingsComeFromBlocks(blocks: seq<Block>)
    ensures Headings(blocks) != [] ==> blocks != []
    ensures forall h :: h in Headings(blocks) ==> h in blocks && h.kind == HEADING
  {
    if blocks != [] {
      HeadingsComeFromBlocks(blocks[..|blocks|-1]);
    }
  }

  /** Deepest section whose path is a prefix of `path`: `_find_section_id`. */
  method FindSection(path: seq<string>, byPath: map<seq<string>, nat>) returns (r: Option<nat>)
    ensures r.None? ==> forall d :: 1 <= d <= |path| ==> path[..d] !in byPath
    ensures r.Some? ==> exists d :: 1 <= d <= |path| && path[..d] in byPath && r.value == byPath[path[..d]] &&
                                    forall e :: d < e <= |path| ==> path[..e] !in byPath
  {
    var depth := |path|;
    while depth > 0
      invariant 0 <= depth <= |path|
      invariant forall d :: depth < d <= |path| ==> path[..d] !in byPath
    {
      if path[..depth] in byPath {
        return Some(byPath[path[..depth]]);
      }
      depth := depth - 1;
    }
    return None;
  }
}
