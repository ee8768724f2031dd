/** The document tree produced by the parsers: app/domain/ingestion/models.py. */
module Ast {
  import opened Common
  import opened HeadingStack

  datatype BlockType = HEADING | PARAGRAPH | LIST | LIST_ITEM | CODE_BLOCK | TABLE | QUOTE

  datatype Block = Block(
    kind: BlockType,
    content: string,
    lineStart: int,
    lineEnd: int,
    level: Option<nat>,
    headingPath: seq<string>,
    children: seq<Block>)

  /** The level of a heading block; a block without one counts as level 1. */
  function LevelOf(b: Block): nat {
    if b.level.Some? then b.level.value else 1
  }

  /** The heading blocks, in order. */
  function Headings(blocks: seq<Block>): seq<Block> {
    if blocks == [] then []
    else
      var b := blocks[|blocks|-1];
      Headings(blocks[..|blocks|-1]) + if b.kind == HEADING then [b] else []
  }

  function Levels(headings: seq<Block>): (levels: seq<nat>)
    ensures |levels| == |headings|
  {
    seq(|headings|, k requires 0 <= k < |headings| => LevelOf(headings[k]))
  }

  /** Titles of the headings still open after `headings`, outermost first. */
  ghost function OpenTitles(headings: seq<Block>): (titles: seq<string>) {
    var open := Open(Levels(headings));
    seq(|open|, k requires 0 <= k < |open| => headings[open[k]].content)
  }

  /** Every block's path is the titles of the headings open at that block, itself included. */
  ghost predicate PathsFollowOutline(blocks: seq<Block>) {
    forall i :: 0 <= i < |blocks| ==> blocks[i].headingPath == OpenTitles(Headings(blocks[..i+1]))
  }

  /** Line ranges are non-empty, disjoint and in increasing order. */
  ghost predicate LinesIncrease(blocks: seq<Block>) {
    && (forall i :: 0 <= i < |blocks| ==> blocks[i].lineStart <= blocks[i].lineEnd)
    && (forall i, j :: 0 <= i < j < |blocks| ==> blocks[i].lineEnd < blocks[j].lineStart)
  }

  lemma HeadingsSnoc(blocks: seq<Block>, b: Block)
    ensures Headings(blocks + [b]) == Headings(blocks) + (if b.kind == HEADING then [b] else [])
  {
    assert (blocks + [b])[..|blocks|] == blocks;
  }

  lemma LevelsSnoc(headings: seq<Block>, h: Block)
    ensures Levels(headings + [h]) == Levels(headings) + [LevelOf(h)]
  {
  }

  lemma {:induction false} HeadingsOfPrefix(blocks: seq<Block>, t: nat)
    requires t <= |blocks|
    ensures Headings(blocks[..t]) <= Headings(blocks)
  {
    if t < |blocks| {
      var shorter := blocks[..|blocks|-1];
      HeadingsOfPrefix(shorter, t);
      assert shorter[..t] == blocks[..t];
    } else {
      assert blocks[..t] == blocks;
    }
  }
}
