/**
 The heading paths written by the parser and the sections rebuilt by the pipeline
 describe one tree. The parser keeps a stack of open headings; the builder computes
 line ranges with its own stack and parents through a dictionary of paths.
 */
module DocumentTree {
  import opened Common
  import opened HeadingStack
  import opened Ast
  import opened Sections

  // ---- headings as a part of the block list ---------------------------------

  /** Where heading `k` stands among the blocks. */
  lemma {:induction false} HeadingPosition(blocks: seq<Block>, k: nat) returns (t: nat)
    requires k < |Headings(blocks)|
    ensures t < |blocks| && blocks[t] == Headings(blocks)[k] && blocks[t].kind == HEADING
    ensures Headings(blocks[..t+1]) == Headings(blocks)[..k+1]
  {
    var last := |blocks| - 1;
    var shorter := blocks[..last];
    if k < |Headings(shorter)| {
      t := HeadingPosition(shorter, k);
      assert shorter[..t+1] == blocks[..t+1];
    } else {
      t := last;
      assert blocks[..t+1] == blocks;
    }
  }

  lemma {:induction false} HeadingLinesIncrease(blocks: seq<Block>)
    requires LinesIncrease(blocks)
    ensures LinesIncrease(Headings(blocks))
  {
    if blocks != [] {
      var shorter, b := blocks[..|blocks|-1], blocks[|blocks|-1];
      HeadingLinesIncrease(shorter);
      HeadingsComeFromBlocks(shorter);
      forall k | 0 <= k < |Headings(shorter)| ensures Headings(shorter)[k].lineEnd < b.lineStart {
        assert Headings(shorter)[k] in shorter;
      }
    }
  }

  lemma LevelsOfPrefix(headings: seq<Block>, h: nat)
    requires h <= |headings|
    ensures Levels(headings[..h]) == Levels(headings)[..h]
  {
  }

  // ---- line ranges ------------------------------------------------------------

  /** Section `i` runs over the lines `from..to`. */
  ghost predicate Spans(headings: seq<Block>, lastLine: int, i: nat, from: int, to: int)
    requires i < |headings|
  {
    headings[i].lineStart <= from && to <= SectionEnd(headings, lastLine, i)
  }

  ghost predicate EndsByLine(headings: seq<Block>, lastLine: int) {
    LinesIncrease(headings) && forall i :: 0 <= i < |headings| ==> headings[i].lineEnd <= lastLine
  }

  lemma SectionsEndByLastLine(blocks: seq<Block>, lastLine: int)
    requires LinesIncrease(blocks) && IsLastLine(blocks, lastLine)
    ensures EndsByLine(Headings(blocks), lastLine)
  {
    HeadingLinesIncrease(blocks);
    HeadingsComeFromBlocks(blocks);
    forall i | 0 <= i < |Headings(blocks)| ensures Headings(blocks)[i].lineEnd <= lastLine {
      assert Headings(blocks)[i] in blocks;
    }
  }

  /** No section is empty: its heading line is inside it. */
  lemma RangeNotEmpty(headings: seq<Block>, lastLine: int, i: nat)
    requires i < |headings| && EndsByLine(headings, lastLine)
    ensures Spans(headings, lastLine, i, headings[i].lineStart, headings[i].lineEnd)
  {
  }

  /** A later section starts inside an earlier one just when no heading between them ends it. */
  lemma StartsInside(headings: seq<Block>, lastLine: int, i: nat, j: nat)
    requires i < j < |headings| && EndsByLine(headings, lastLine)
    ensures headings[j].lineStart <= SectionEnd(headings, lastLine, i) <==>
            IsOpen(Levels(headings)[..j+1], i)
  {
    var levels := Levels(headings);
    match NextSibling(levels, i)
    case None =>
      assert forall m :: i < m < |levels| ==> levels[m] > levels[i];
    case Some(m) =>
      if m > j {
        assert headings[j].lineEnd < headings[m].lineStart;
      } else {
        assert levels[..j+1][m] <= levels[..j+1][i];
        if m < j { assert headings[m].lineEnd < headings[j].lineStart; }
      }
  }

  /** Two sections are nested or disjoint. */
  lemma RangesNest(headings: seq<Block>, lastLine: int, i: nat, j: nat)
    requires i < j < |headings| && EndsByLine(headings, lastLine)
    ensures SectionEnd(headings, lastLine, i) < headings[j].lineStart ||
            Spans(headings, lastLine, i, headings[j].lineStart, SectionEnd(headings, lastLine, j))
  {
    StartsInside(headings, lastLine, i, j);
    var levels := Levels(headings);
    if IsOpen(levels[..j+1], i) {
      assert levels[..j+1][j] > levels[i];
      match NextSibling(levels, i)
      case None =>
        if NextSibling(levels, j).Some? {
          var m := NextSibling(levels, j).value;
          assert headings[m].lineStart <= headings[m].lineEnd <= lastLine;
        }
      case Some(m) =>
        assert forall x :: i < x <= j ==> levels[..j+1][x] == levels[x];
        assert levels[m] <= levels[j];
        NextSiblingIsFirst(levels, j, m);
        var m' := NextSibling(levels, j).value;
        if m' < m { assert headings[m'].lineEnd < headings[m].lineStart; }
    }
  }

  lemma NextSiblingIsFirst(levels: seq<nat>, j: nat, m: nat)
    requires j < m < |levels| && levels[m] <= levels[j]
    ensures NextSibling(levels, j).Some? && NextSibling(levels, j).value <= m
  {
  }

  // ---- parents -----------------------------------------------------------------

  /** The open headings up to and including an open heading are those that were open when it came. */
  lemma OpenUpToAnOpenHeading(levels: seq<nat>, n: nat, q: nat)
    requires n <= |levels| && q < |Open(levels[..n])|
    ensures Open(levels[..Open(levels[..n])[q]+1]) == Open(levels[..n])[..q+1]
  {
    hide Open, OpenUpTo;
    var open := Open(levels[..n]);
    var p := open[q];
    var stack := open[..q+1];
    var before := levels[..p+1];
    assert IsOpen(levels[..n], p);
    forall i | 0 <= i < |stack| ensures stack[i] < |before| && IsOpen(before, stack[i]) {
      assert IsOpen(levels[..n], open[i]);
      if i < q { assert open[i] < open[q]; }
      forall m | stack[i] < m < |before| ensures before[stack[i]] < before[m] {
        assert levels[..n][m] == before[m];
      }
    }
    forall k | 0 <= k < |before| && IsOpen(before, k) ensures k in stack {
      OpenBeforeIsOpen(levels, n, p, k);
      var i :| 0 <= i < |open| && open[i] == k;
      assert forall x :: q < x < |open| ==> open[q] < open[x];
      assert stack[i] == k;
    }
    OpenStackUnique(before, stack);
  }

  lemma OpenBeforeIsOpen(levels: seq<nat>, n: nat, p: nat, k: nat)
    requires k <= p < n <= |levels| && IsOpen(levels[..n], p) && IsOpen(levels[..p+1], k)
    ensures IsOpen(levels[..n], k) && k in Open(levels[..n])
  {
    forall m | k < m < n ensures levels[..n][k] < levels[..n][m] {
      if m <= p {
        assert levels[..p+1][k] < levels[..p+1][m];
      } else {
        assert levels[..n][p] < levels[..n][m];
        if k < p { assert levels[..p+1][k] < levels[..p+1][p]; }
      }
    }
  }

  /** Heading paths are the titles of the open headings: what the parser guarantees. */
  ghost predicate PathsAreOpenTitles(headings: seq<Block>) {
    forall i :: 0 <= i < |headings| ==> headings[i].headingPath == OpenTitles(headings[..i+1])
  }

  lemma ParserGivesOpenTitles(blocks: seq<Block>)
    requires PathsFollowOutline(blocks)
    ensures PathsAreOpenTitles(Headings(blocks))
  {
    forall i | 0 <= i < |Headings(blocks)|
      ensures Headings(blocks)[i].headingPath == OpenTitles(Headings(blocks)[..i+1])
    {
      var t := HeadingPosition(blocks, i);
    }
  }

  /** The open headings at heading `i`, itself last. */
  ghost function OpenAt(headings: seq<Block>, i: nat): (open: seq<nat>)
    requires i < |headings|
    ensures open != [] && open[|open|-1] == i
    ensures forall q :: 0 <= q < |open| ==> open[q] <= i
    ensures IsOpenStack(Levels(headings)[..i+1], open)
  {
    var levels := Levels(headings)[..i+1];
    var open := Open(levels);
    assert IsOpen(levels, i);
    assert open[|open|-1] == i by {
      var q :| 0 <= q < |open| && open[q] == i;
      assert forall x :: 0 <= x < |open| - 1 ==> open[x] < open[|open|-1];
    }
    open
  }

  lemma PathAt(headings: seq<Block>, i: nat)
    requires i < |headings| && PathsAreOpenTitles(headings)
    ensures |headings[i].headingPath| == |OpenAt(headings, i)|
    ensures forall q :: 0 <= q < |OpenAt(headings, i)| ==>
              headings[i].headingPath[q] == headings[OpenAt(headings, i)[q]].content
  {
    hide Open, OpenUpTo;
    LevelsOfPrefix(headings, i + 1);
  }

  /** The open heading just above heading `i` has path `ParentPath`, and no later one before `i` has it. */
  lemma StructuralParent(headings: seq<Block>, i: nat)
    requires i < |headings| && PathsAreOpenTitles(headings) && |OpenAt(headings, i)| > 1
    ensures var open := OpenAt(headings, i); var p := open[|open|-2];
            LastWithPath(PathsOf(headings), i, ParentPath(headings[i].headingPath)) == Some(p)
  {
    hide Open, OpenUpTo, IsOpenStack;
    var open := OpenAt(headings, i);
    var d := |open| - 2;
    var p := open[d];
    PathAt(headings, i);
    PathAt(headings, p);
    AncestorsKept(headings, i, d);
    assert headings[p].headingPath == ParentPath(headings[i].headingPath);
    forall j | p < j < i ensures headings[j].headingPath != headings[p].headingPath {
      PathAt(headings, j);
      LongerBelow(headings, i, d, j);
    }
    LastIs(PathsOf(headings), i, headings[p].headingPath, p);
  }

  lemma AncestorsKept(headings: seq<Block>, i: nat, d: nat)
    requires i < |headings| && d < |OpenAt(headings, i)|
    ensures OpenAt(headings, i)[d] <= i
    ensures OpenAt(headings, OpenAt(headings, i)[d]) == OpenAt(headings, i)[..d+1]
  {
    OpenUpToAnOpenHeading(Levels(headings), i + 1, d);
  }

  /** Between an open heading and a heading it encloses, every heading is deeper in the outline. */
  lemma LongerBelow(headings: seq<Block>, i: nat, d: nat, j: nat)
    requires i < |headings| && d < |OpenAt(headings, i)| && OpenAt(headings, i)[d] < j < i
    ensures |OpenAt(headings, j)| > d + 1
  {
    hide Open, OpenUpTo;
    var levels := Levels(headings);
    var p := OpenAt(headings, i)[d];
    var below := OpenAt(headings, j);
    var upToI, upToJ := levels[..i+1], levels[..j+1];
    assert IsOpen(upToI, p);
    assert IsOpen(upToJ, p) by {
      forall m | p < m < j + 1 ensures upToJ[p] < upToJ[m] {
        assert upToI[p] < upToI[m];
      }
    }
    var q :| 0 <= q < |below| && below[q] == p;
    AncestorsKept(headings, i, d);
    AncestorsKept(headings, j, q);
  }

  lemma {:induction false} LastIs(paths: seq<seq<string>>, upTo: nat, path: seq<string>, p: nat)
    requires p < upTo <= |paths| && paths[p] == path
    requires forall j :: p < j < upTo ==> paths[j] != path
    ensures LastWithPath(paths, upTo, path) == Some(p)
  {
    if p < upTo - 1 {
      LastIs(paths, upTo - 1, path, p);
    }
  }

  /**
   However many headings share a title, the parent found through the dictionary of
   paths is the nearest earlier heading of strictly smaller level, or none.
   */
  lemma ParentIsNearestAbove(headings: seq<Block>, i: nat)
    requires i < |headings| && PathsAreOpenTitles(headings)
    ensures ParentOf(PathsOf(headings), i) == NearestAbove(Levels(headings), Levels(headings)[i], i)
  {
    hide Open, OpenUpTo;
    var open := OpenAt(headings, i);
    NearestIsOpen(headings, i);
    PathAt(headings, i);
    if |open| > 1 {
      StructuralParent(headings, i);
    } else {
      forall j | 0 <= j < i ensures PathsOf(headings)[j] != [] { PathAt(headings, j); }
    }
  }

  lemma NearestIsOpen(headings: seq<Block>, i: nat)
    requires i < |headings|
    ensures var open := OpenAt(headings, i);
            NearestAbove(Levels(headings), Levels(headings)[i], i) ==
            if |open| > 1 then Some(open[|open|-2]) else None
  {
    hide OpenAt, Levels, NearestAbove;
    var open, levels := OpenAt(headings, i), Levels(headings);
    NearestIsAmongOpen(headings, i);
    if |open| > 1 {
      BetweenIsAbove(headings, i, |open| - 2);
      NearestIs(levels, i, open[|open|-2]);
    }
  }

  lemma NearestIs(levels: seq<nat>, i: nat, p: nat)
    requires p < i < |levels| && levels[p] < levels[i]
    requires var near := NearestAbove(levels, levels[i], i); near.Some? ==> near.value <= p
    ensures NearestAbove(levels, levels[i], i) == Some(p)
  {
    hide NearestAbove;
  }

  lemma NearestIsAmongOpen(headings: seq<Block>, i: nat)
    requires i < |headings|
    ensures var near := NearestAbove(Levels(headings), Levels(headings)[i], i); var open := OpenAt(headings, i);
            near.Some? ==> |open| > 1 && near.value <= open[|open|-2]
  {
    hide Open, OpenUpTo, Levels, NearestAbove, IsOpen;
    var levels, open := Levels(headings), OpenAt(headings, i);
    var near := NearestAbove(levels, levels[i], i);
    if near.Some? {
      NearestStaysOpen(levels, i);
      var k := near.value;
      assert k in open;
      var q :| 0 <= q < |open| && open[q] == k;
      assert q < |open| - 1;
      if q < |open| - 2 { assert open[q] < open[|open|-2]; }
    }
  }

  lemma BetweenIsAbove(headings: seq<Block>, i: nat, q: nat)
    requires i < |headings| && q + 1 < |OpenAt(headings, i)|
    ensures OpenAt(headings, i)[q] < i
    ensures Levels(headings)[OpenAt(headings, i)[q]] < Levels(headings)[i]
  {
    hide Open, OpenUpTo;
    var open, levels := OpenAt(headings, i), Levels(headings)[..i+1];
    assert open[q] < open[|open|-1];
    assert IsOpen(levels, open[q]);
    assert levels[open[q]] < levels[i];
  }

  /** Every section lies inside its parent. */
  lemma ParentSpansChild(headings: seq<Block>, lastLine: int, i: nat)
    requires i < |headings| && EndsByLine(headings, lastLine) && PathsAreOpenTitles(headings)
    requires ParentOf(PathsOf(headings), i).Some?
    ensures var p := ParentOf(PathsOf(headings), i).value;
            p < i && Spans(headings, lastLine, p, headings[i].lineStart, SectionEnd(headings, lastLine, i))
  {
    hide PathsAreOpenTitles, EndsByLine, SectionEnd, Open, OpenUpTo, Levels;
    ParentIsNearestAbove(headings, i);
    var p, levels := ParentOf(PathsOf(headings), i).value, Levels(headings);
    NearestStaysOpen(levels, i);
    StartsInside(headings, lastLine, p, i);
    RangesNest(headings, lastLine, p, i);
  }

  lemma NearestStaysOpen(levels: seq<nat>, i: nat)
    requires i < |levels| && NearestAbove(levels, levels[i], i).Some?
    ensures IsOpen(levels[..i+1], NearestAbove(levels, levels[i], i).value)
  {
    hide NearestAbove;
    var upTo, k := levels[..i+1], NearestAbove(levels, levels[i], i).value;
    forall m | k < m < |upTo| ensures upTo[k] < upTo[m] {
      assert m < i ==> levels[m] >= levels[i];
    }
  }

  /** Section `s` lies inside section `p`. */
  predicate Encloses(p: Section, s: Section) {
    p.lineStart <= s.lineStart && s.lineEnd <= p.lineEnd
  }

  /** Of the sections built: none is empty, any two are nested or disjoint, and every parent encloses its child. */
  lemma SectionsFormATree(blocks: seq<Block>, lastLine: int, sections: seq<Section>, parents: seq<Option<nat>>,
                          paths: seq<seq<string>>)
    requires LinesIncrease(blocks) && PathsFollowOutline(blocks)
    requires AreSectionsOf(blocks, lastLine, sections, parents, paths)
    ensures |parents| == |sections|
    ensures forall i :: 0 <= i < |sections| ==> sections[i].lineStart <= sections[i].lineEnd
    ensures forall i, j :: 0 <= i < j < |sections| ==>
              sections[i].lineEnd < sections[j].lineStart || Encloses(sections[i], sections[j])
    ensures forall j :: 0 <= j < |sections| && parents[j].Some? ==>
              parents[j].value < j && Encloses(sections[parents[j].value], sections[j])
  {
    hide PathsFollowOutline, IsLastLine, PathsAreOpenTitles, EndsByLine, SectionEnd, ParentOf;
    var headings := Headings(blocks);
    ParserGivesOpenTitles(blocks);
    if headings != [] {
      SectionsEndByLastLine(blocks, lastLine);
    }
    forall i: nat | i < |sections| ensures sections[i].lineStart <= sections[i].lineEnd {
      HeadingIsOneRange(headings, lastLine, i);
    }
    forall i: nat, j: nat | i < j < |sections|
      ensures sections[i].lineEnd < sections[j].lineStart || Encloses(sections[i], sections[j])
    {
      RangesNest(headings, lastLine, i, j);
    }
    forall j: nat | j < |sections| && parents[j].Some?
      ensures parents[j].value < j && Encloses(sections[parents[j].value], sections[j])
    {
      ParentSpansChild(headings, lastLine, j);
    }
  }

  lemma HeadingIsOneRange(headings: seq<Block>, lastLine: int, i: nat)
    requires i < |headings| && EndsByLine(headings, lastLine)
    ensures headings[i].lineStart <= SectionEnd(headings, lastLine, i)
  {
    RangeNotEmpty(headings, lastLine, i);
  }

  // ---- blocks and the sections around them ---------------------------------------

  predicate Contains(s: Section, b: Block) {
    s.lineStart <= b.lineStart && b.lineEnd <= s.lineEnd
  }

  /** Positions, outermost first, of the first `n` sections whose lines contain block `b`. */
  ghost function Enclosing(sections: seq<Section>, n: nat, b: Block): (r: seq<nat>)
    requires n <= |sections|
    ensures forall q :: 0 <= q < |r| ==> r[q] < n && Contains(sections[r[q]], b)
    ensures forall k: nat :: k < n && Contains(sections[k], b) ==> k in r
    ensures forall i, j :: 0 <= i < j < |r| ==> r[i] < r[j]
  {
    if n == 0 then []
    else Enclosing(sections, n - 1, b) + if Contains(sections[n-1], b) then [n - 1] else []
  }

  ghost function SectionTitles(sections: seq<Section>, positions: seq<nat>): (titles: seq<string>)
    requires forall q :: 0 <= q < |positions| ==> positions[q] < |sections|
  {
    seq(|positions|, q requires 0 <= q < |positions| => sections[positions[q]].heading)
  }

  /** Headings before block `t` end above it; the others start below it. */
  lemma HeadingsAround(blocks: seq<Block>, t: nat, k: nat)
    requires t < |blocks| && LinesIncrease(blocks) && blocks[t].kind != HEADING
    requires k < |Headings(blocks)|
    ensures |Headings(blocks[..t])| <= |Headings(blocks)|
    ensures if k < |Headings(blocks[..t])| then Headings(blocks)[k].lineEnd < blocks[t].lineStart
            else blocks[t].lineEnd < Headings(blocks)[k].lineStart
  {
    HeadingsOfPrefix(blocks, t);
    var pos := HeadingPosition(blocks, k);
    if k < |Headings(blocks[..t])| {
      HeadingsComeFromBlocks(blocks[..t]);
      assert Headings(blocks)[k] == Headings(blocks[..t])[k];
      assert Headings(blocks)[k] in blocks[..t];
      var u :| 0 <= u < t && blocks[u] == Headings(blocks)[k];
    } else if pos < t {
      FewerHeadingsBefore(blocks, pos + 1, t);
    }
  }

  lemma FewerHeadingsBefore(blocks: seq<Block>, s: nat, t: nat)
    requires s <= t <= |blocks|
    ensures |Headings(blocks[..s])| <= |Headings(blocks[..t])|
  {
    HeadingsOfPrefix(blocks[..t], s);
    assert blocks[..t][..s] == blocks[..s];
  }

  /** A section contains block `t` just when its heading is still open there. */
  lemma ContainsIffOpen(blocks: seq<Block>, lastLine: int, t: nat, k: nat)
    requires t < |blocks| && LinesIncrease(blocks) && blocks[t].kind != HEADING && IsLastLine(blocks, lastLine)
    requires k < |Headings(blocks)|
    ensures |Headings(blocks[..t])| <= |Headings(blocks)|
    ensures Spans(Headings(blocks), lastLine, k, blocks[t].lineStart, blocks[t].lineEnd) <==>
            k < |Headings(blocks[..t])| && IsOpen(Levels(Headings(blocks))[..|Headings(blocks[..t])|], k)
  {
    hide Headings, LevelOf;
    var headings, h, b := Headings(blocks), |Headings(blocks[..t])|, blocks[t];
    HeadingsAround(blocks, t, k);
    HeadingLinesIncrease(blocks);
    if k < h {
      var levels := Levels(headings);
      match NextSibling(levels, k)
      case None =>
        assert forall m :: k < m < |levels| ==> levels[m] > levels[k];
      case Some(m) =>
        HeadingsAround(blocks, t, m);
        if m < h { assert levels[..h][m] <= levels[..h][k]; }
    }
  }

  lemma SectionIs(blocks: seq<Block>, lastLine: int, sections: seq<Section>, parents: seq<Option<nat>>,
                  paths: seq<seq<string>>, k: nat)
    requires AreSectionsOf(blocks, lastLine, sections, parents, paths) && k < |Headings(blocks)|
    ensures |sections| == |paths| == |Headings(blocks)|
    ensures sections[k].heading == Headings(blocks)[k].content && paths[k] == Headings(blocks)[k].headingPath
    ensures forall b :: Contains(sections[k], b) <==> Spans(Headings(blocks), lastLine, k, b.lineStart, b.lineEnd)
  {
    hide Headings, SectionEnd, Join, IsLastLine;
  }

  lemma SectionCount(blocks: seq<Block>, lastLine: int, sections: seq<Section>, parents: seq<Option<nat>>,
                     paths: seq<seq<string>>)
    requires AreSectionsOf(blocks, lastLine, sections, parents, paths)
    ensures |sections| == |parents| == |paths| == |Headings(blocks)|
    ensures paths == PathsOf(Headings(blocks))
    ensures Headings(blocks) != [] ==> IsLastLine(blocks, lastLine)
  {
    hide Headings, SectionFor;
  }

  lemma EnclosingAreOpen(blocks: seq<Block>, lastLine: int, sections: seq<Section>, parents: seq<Option<nat>>,
                         paths: seq<seq<string>>, t: nat)
    requires t < |blocks| && LinesIncrease(blocks) && blocks[t].kind != HEADING
    requires AreSectionsOf(blocks, lastLine, sections, parents, paths)
    ensures Headings(blocks[..t]) <= Headings(blocks)
    ensures Enclosing(sections, |sections|, blocks[t]) == Open(Levels(Headings(blocks[..t])))
  {
    hide Open, OpenUpTo, Headings, IsLastLine, LevelOf, AreSectionsOf, LinesIncrease, Contains, Spans;
    var headings, h := Headings(blocks), |Headings(blocks[..t])|;
    HeadingsOfPrefix(blocks, t);
    LevelsOfPrefix(headings, h);
    assert headings[..h] == Headings(blocks[..t]);
    SectionCount(blocks, lastLine, sections, parents, paths);
    var levels := Levels(headings)[..h];
    var r := Enclosing(sections, |sections|, blocks[t]);
    forall k: nat ensures k in r <==> k in Open(levels) {
      if k < |headings| {
        ContainsIffOpen(blocks, lastLine, t, k);
        SectionIs(blocks, lastLine, sections, parents, paths, k);
      }
    }
    AscendingUnique(r, Open(levels));
  }

  /**
   For parsed blocks, the path of a non-heading block is the titles, outermost
   first, of exactly the sections whose line range contains it.
   */
  lemma PathIsEnclosingSections(blocks: seq<Block>, lastLine: int, sections: seq<Section>, parents: seq<Option<nat>>,
                                paths: seq<seq<string>>, t: nat)
    requires t < |blocks| && blocks[t].kind != HEADING
    requires LinesIncrease(blocks) && PathsFollowOutline(blocks)
    requires AreSectionsOf(blocks, lastLine, sections, parents, paths)
    ensures blocks[t].headingPath == SectionTitles(sections, Enclosing(sections, |sections|, blocks[t]))
  {
    hide Open, OpenUpTo, IsLastLine, LevelOf, AreSectionsOf, Headings, LinesIncrease, Levels, OpenTitles, SectionTitles;
    EnclosingAreOpen(blocks, lastLine, sections, parents, paths, t);
    SectionCount(blocks, lastLine, sections, parents, paths);
    HeadingsSnoc(blocks[..t], blocks[t]);
    assert blocks[..t+1] == blocks[..t] + [blocks[t]];
    assert Headings(blocks[..t]) + [] == Headings(blocks[..t]);
    TitlesAgree(blocks, lastLine, sections, parents, paths, Headings(blocks[..t]),
                Enclosing(sections, |sections|, blocks[t]));
  }

  lemma TitlesAgree(blocks: seq<Block>, lastLine: int, sections: seq<Section>, parents: seq<Option<nat>>,
                    paths: seq<seq<string>>,
                    headings: seq<Block>, r: seq<nat>)
    requires AreSectionsOf(blocks, lastLine, sections, parents, paths)
    requires headings <= Headings(blocks) && r == Open(Levels(headings))
    requires forall q :: 0 <= q < |r| ==> r[q] < |sections|
    ensures SectionTitles(sections, r) == OpenTitles(headings)
  {
    hide AreSectionsOf, Headings, Open, Levels, IsOpen;
    forall q | 0 <= q < |r| ensures sections[r[q]].heading == headings[r[q]].content {
      SectionIs(blocks, lastLine, sections, parents, paths, r[q]);
    }
  }

  // ---- looking a section up by path ------------------------------------------------

  /** The map `process` builds from the section paths: for equal paths the last section wins. */
  ghost predicate IsSectionMap(byPath: map<seq<string>, nat>, paths: seq<seq<string>>) {
    Indexes(byPath, paths, |paths|)
  }

  lemma InnermostHasPath(blocks: seq<Block>, lastLine: int, sections: seq<Section>, parents: seq<Option<nat>>,
                         paths: seq<seq<string>>, t: nat)
    requires t < |blocks| && blocks[t].kind != HEADING
    requires LinesIncrease(blocks) && PathsFollowOutline(blocks)
    requires AreSectionsOf(blocks, lastLine, sections, parents, paths)
    requires Enclosing(sections, |sections|, blocks[t]) != []
    ensures var r := Enclosing(sections, |sections|, blocks[t]); var e := r[|r|-1];
            e < |paths| && paths[e] == blocks[t].headingPath
  {
    hide Open, OpenUpTo, IsLastLine, LevelOf, AreSectionsOf, Headings, LinesIncrease, Levels, PathsFollowOutline,
         PathsAreOpenTitles, IsOpenStack, Contains;
    var headings, h := Headings(blocks), |Headings(blocks[..t])|;
    EnclosingAreOpen(blocks, lastLine, sections, parents, paths, t);
    PathIsEnclosingSections(blocks, lastLine, sections, parents, paths, t);
    SectionCount(blocks, lastLine, sections, parents, paths);
    ParserGivesOpenTitles(blocks);
    var r := Enclosing(sections, |sections|, blocks[t]);
    var e := r[|r|-1];
    LevelsOfPrefix(headings, h);
    assert headings[..h] == Headings(blocks[..t]);
    OpenUpToAnOpenHeading(Levels(headings), h, |r| - 1);
    assert OpenAt(headings, e) == r;
    PathAt(headings, e);
    forall q | 0 <= q < |r| ensures sections[r[q]].heading == headings[r[q]].content {
      SectionIs(blocks, lastLine, sections, parents, paths, r[q]);
    }
    SectionIs(blocks, lastLine, sections, parents, paths, e);
    assert headings[e].headingPath == blocks[t].headingPath;
  }

  /**
   What `_find_section_id` answers for a block's path: the last section with that
   path. It is the innermost section around the block exactly when no later section
   has the same path.
   */
  lemma FoundSectionIsInnermost(blocks: seq<Block>, lastLine: int, sections: seq<Section>, parents: seq<Option<nat>>,
                                paths: seq<seq<string>>,
                                t: nat, byPath: map<seq<string>, nat>)
    requires t < |blocks| && blocks[t].kind != HEADING
    requires LinesIncrease(blocks) && PathsFollowOutline(blocks)
    requires AreSectionsOf(blocks, lastLine, sections, parents, paths)
    requires IsSectionMap(byPath, paths)
    ensures var r := Enclosing(sections, |sections|, blocks[t]); var path := blocks[t].headingPath;
            if r == [] then path == []
            else
              var e := r[|r|-1];
              path != [] && path in byPath && byPath[path] >= e &&
              (byPath[path] == e <==> forall k :: e < k < |paths| ==> paths[k] != path)
  {
    hide IsLastLine, LevelOf, Headings, PathsFollowOutline, AreSectionsOf;
    var r, path := Enclosing(sections, |sections|, blocks[t]), blocks[t].headingPath;
    PathIsEnclosingSections(blocks, lastLine, sections, parents, paths, t);
    SectionCount(blocks, lastLine, sections, parents, paths);
    if r != [] {
      InnermostHasPath(blocks, lastLine, sections, parents, paths, t);
      IndexAnswers(byPath, paths, |paths|, path);
    }
  }

  /** Sections built, indexed by path and looked up for one block, as `process` does for a chunk. */
  method SectionOfBlock(blocks: seq<Block>, t: nat)
    returns (found: Option<nat>, sections: seq<Section>, parents: seq<Option<nat>>, paths: seq<seq<string>>)
    requires t < |blocks| && blocks[t].kind != HEADING
    requires LinesIncrease(blocks) && PathsFollowOutline(blocks)
    ensures SectionsBuilt(blocks, sections, parents, paths) && |sections| == |paths| == |Headings(blocks)|
    ensures var r := Enclosing(sections, |sections|, blocks[t]);
            if r == [] then found == None
            else
              var e := r[|r|-1];
              found.Some? &&
              (found.value == e <==> forall k :: e < k < |paths| ==> paths[k] != blocks[t].headingPath)
  {
    hide IsLastLine, LevelOf, Headings, PathsFollowOutline, Indexes, LinesIncrease, AreSectionsOf, HeadingsAt,
         SectionFits;
    ghost var at;
    sections, parents, paths, at := BuildSections(blocks);
    ghost var lastLine :| AreSectionsOf(blocks, lastLine, sections, parents, paths);
    SectionCount(blocks, lastLine, sections, parents, paths);
    var byPath: map<seq<string>, nat> := map[];
    NothingIndexed(paths);
    for k := 0 to |paths|
      invariant Indexes(byPath, paths, k)
    {
      IndexOneMore(byPath, paths, k);
      byPath := byPath[paths[k] := k];
    }
    FoundSectionIsInnermost(blocks, lastLine, sections, parents, paths, t, byPath);
    var path := blocks[t].headingPath;
    assert path[..|path|] == path;
    found := FindSection(path, byPath);
  }

  /** Two headings with the same title, and a paragraph under the first. */
  function TwoNotes(): (blocks: seq<Block>)
    ensures |blocks| == 3
  {
    [Block(HEADING, "Note", 1, 1, Some(1), ["Note"], []),
     Block(PARAGRAPH, "text", 2, 2, None, ["Note"], []),
     Block(HEADING, "Note", 3, 3, Some(1), ["Note"], [])]
  }

  lemma TwoNotesHeadings()
    ensures var b := TwoNotes();
      Headings(b[..1]) == [b[0]] && Headings(b[..2]) == [b[0]] && Headings(b[..3]) == Headings(b) == [b[0], b[2]]
  {
    var b := TwoNotes();
    assert b[..1] == [] + [b[0]] && b[..2] == b[..1] + [b[1]] && b == b[..3] == b[..2] + [b[2]];
    HeadingsSnoc([], b[0]);
    HeadingsSnoc(b[..1], b[1]);
    HeadingsSnoc(b[..2], b[2]);
  }

  lemma TwoNotesTitles()
    ensures var b := TwoNotes(); OpenTitles([b[0]]) == OpenTitles([b[0], b[2]]) == ["Note"]
  {
    hide Open, OpenUpTo;
    var b := TwoNotes();
    assert Levels([b[0]]) == [1] && Levels([b[0], b[2]]) == [1, 1];
    OpenStackUnique([1], [0]);
    OpenStackUnique([1, 1], [1]);
  }

  lemma TwoNotesFollowOutline()
    ensures LinesIncrease(TwoNotes()) && PathsFollowOutline(TwoNotes())
    ensures Headings(TwoNotes()) == [TwoNotes()[0], TwoNotes()[2]]
  {
    hide Headings, OpenTitles;
    TwoNotesHeadings();
    TwoNotesTitles();
  }

  /** There the section found for the paragraph is the second one, which does not contain it; the first does. */
  lemma RepeatedTitleMisleads(lastLine: int, sections: seq<Section>, parents: seq<Option<nat>>, paths: seq<seq<string>>,
                              byPath: map<seq<string>, nat>)
    requires AreSectionsOf(TwoNotes(), lastLine, sections, parents, paths) && IsSectionMap(byPath, paths)
    ensures |sections| == 2 && Contains(sections[0], TwoNotes()[1]) && !Contains(sections[1], TwoNotes()[1])
    ensures ["Note"] in byPath && byPath[["Note"]] == 1
  {
    TwoNotesFollowOutline();
    hide Headings, Join;
    assert NextSibling(Levels([TwoNotes()[0], TwoNotes()[2]]), 0) == Some(1);
    IndexAnswers(byPath, paths, 2, ["Note"]);
    assert paths == [["Note"], ["Note"]];
  }

  lemma NothingIndexed(paths: seq<seq<string>>)
    ensures Indexes(map[], paths, 0)
  {
  }
}
