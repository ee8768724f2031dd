/**
 The Markdown block parser: app/ingestion/parsers/markdown.py.

 The regular expressions are a parameter: any line predicates whatever. The
 scanner, its branch order, the line numbers and the heading stack are the code's.
 */
module Markdown {
  import opened Common
  import opened Text
  import opened HeadingStack
  import opened Ast

  /** What the module's regular expressions say of one line. */
  datatype Patterns = Patterns(
    heading: string -> Option<(nat, string)>,
    fence: string -> Option<char>,
    table: string -> bool,
    listItem: string -> bool,
    quote: string -> bool,
    indented: string -> bool)

  predicate StartsIndented(line: string) {
    line != "" && (line[0] == ' ' || line[0] == '\t')
  }

  function LStripSpaces(line: string): string {
    if line != "" && line[0] == ' ' then LStripSpaces(line[1..]) else line
  }

  /** One level of indentation removed: a tab or up to four spaces. */
  function DedentCode(line: string): string {
    if line != "" && line[0] == '\t' then line[1..]
    else if "    " <= line then line[4..]
    else LStripSpaces(line)
  }

  /** The branch of the scanner that a non-blank line at a block start takes. */
  datatype Opener =
    | OpensHeading(level: nat, title: string)
    | OpensFence(mark: char)
    | OpensTable
    | OpensIndented
    | OpensList
    | OpensQuote
    | OpensParagraph

  function OpenerOf(g: Patterns, line: string): Opener {
    if g.heading(line).Some? then OpensHeading(g.heading(line).value.0, g.heading(line).value.1)
    else if g.fence(line).Some? then OpensFence(g.fence(line).value)
    else if g.table(line) then OpensTable
    else if g.indented(line) && !g.listItem(line) then OpensIndented
    else if g.listItem(line) then OpensList
    else if g.quote(line) then OpensQuote
    else OpensParagraph
  }

  function KindOf(o: Opener): BlockType {
    match o
    case OpensHeading(_, _) => HEADING
    case OpensFence(_) => CODE_BLOCK
    case OpensTable => TABLE
    case OpensIndented => CODE_BLOCK
    case OpensList => LIST
    case OpensQuote => QUOTE
    case OpensParagraph => PARAGRAPH
  }

  /** A line that ends a paragraph it does not start. */
  predicate Interrupts(g: Patterns, line: string) {
    g.heading(line).Some? || g.fence(line).Some? || g.table(line) || g.listItem(line) || g.quote(line)
  }

  /** The kinds of block that end at the first line breaking a run. */
  datatype Run = TableRun | QuoteRun | ListRun | IndentedRun

  predicate InRun(g: Patterns, r: Run, line: string) {
    match r
    case TableRun => g.table(line)
    case QuoteRun => g.quote(line)
    case ListRun => !Blank(line) && (g.listItem(line) || StartsIndented(line))
    case IndentedRun => Blank(line) || g.indented(line)
  }

  /** `lines[a..b+1]` is the longest run of kind `r` from line `a` on. */
  ghost predicate LongestRun(g: Patterns, r: Run, lines: seq<string>, a: nat, b: nat) {
    && a <= b < |lines|
    && (forall k :: a <= k <= b ==> InRun(g, r, lines[k]))
    && (b + 1 < |lines| ==> !InRun(g, r, lines[b+1]))
  }

  /** Indented code: the longest run less the blank lines it ends with. */
  ghost predicate TrimmedRun(g: Patterns, lines: seq<string>, a: nat, b: nat) {
    exists m: nat :: LongestRun(g, IndentedRun, lines, a, m) && BlankTail(lines, b, m)
  }

  ghost predicate BlankTail(lines: seq<string>, b: nat, m: nat) {
    b <= m < |lines| && !Blank(lines[b]) && forall k :: b < k <= m ==> Blank(lines[k])
  }

  /** Line `b` is the fence closing the one at `a`, or the last line if none does. */
  ghost predicate FenceRun(g: Patterns, mark: char, lines: seq<string>, a: nat, b: nat) {
    && a <= b < |lines|
    && (forall k :: a < k < b ==> g.fence(lines[k]) != Some(mark))
    && ((a < b && g.fence(lines[b]) == Some(mark)) || b == |lines| - 1)
  }

  ghost predicate ParagraphRun(g: Patterns, lines: seq<string>, a: nat, b: nat) {
    && a <= b < |lines|
    && (forall k :: a <= k <= b ==> !Blank(lines[k]))
    && (forall k :: a < k <= b ==> !Interrupts(g, lines[k]))
    && (b + 1 < |lines| ==> Blank(lines[b+1]) || Interrupts(g, lines[b+1]))
  }

  /** Line `b` is the last line of the block that `opener` opens at line `a`. */
  ghost predicate EndsAt(g: Patterns, lines: seq<string>, a: nat, opener: Opener, b: nat) {
    match opener
    case OpensHeading(_, _) => b == a
    case OpensFence(mark) => FenceRun(g, mark, lines, a, b)
    case OpensTable => LongestRun(g, TableRun, lines, a, b)
    case OpensIndented => TrimmedRun(g, lines, a, b)
    case OpensList => LongestRun(g, ListRun, lines, a, b)
    case OpensQuote => LongestRun(g, QuoteRun, lines, a, b)
    case OpensParagraph => ParagraphRun(g, lines, a, b)
  }

  function Dedented(lines: seq<string>): seq<string> {
    seq(|lines|, k requires 0 <= k < |lines| => DedentCode(lines[k]))
  }

  function ContentOf(opener: Opener, lines: seq<string>): string {
    match opener
    case OpensHeading(_, title) => title
    case OpensIndented => Join(Dedented(lines), "\n")
    case _ => Join(lines, "\n")
  }

  /** The item blocks of a list: one per item line, all at the list's first line. */
  function ItemsOf(g: Patterns, lines: seq<string>, path: seq<string>, lineno: int): seq<Block> {
    if lines == [] then []
    else
      var line := lines[|lines|-1];
      ItemsOf(g, lines[..|lines|-1], path, lineno) +
      if g.listItem(line) then [Block(LIST_ITEM, Strip(line), lineno, lineno, None, path, [])] else []
  }

  /** Block `b` is what the scanner emits for body lines `from..to` inclusive. */
  ghost predicate IsBlockAt(g: Patterns, lines: seq<string>, startLine: int, b: Block, from: nat, to: nat) {
    && from < |lines| && !Blank(lines[from])
    && var opener := OpenerOf(g, lines[from]);
    && EndsAt(g, lines, from, opener, to)
    && from <= to < |lines|
    && b.lineStart == startLine + from && b.lineEnd == startLine + to
    && b.kind == KindOf(opener)
    && b.content == ContentOf(opener, lines[from..to+1])
    && b.level == (if opener.OpensHeading? then Some(opener.level) else None)
    && b.children == (if opener.OpensList? then ItemsOf(g, lines[from..to+1], b.headingPath, b.lineStart) else [])
  }

  /** Line `k` belongs to block `b`. */
  predicate Covers(b: Block, startLine: int, k: nat) {
    b.lineStart <= startLine + k <= b.lineEnd
  }

  /** Every block lies in the lines before `upTo` and is what the scanner emits there. */
  ghost predicate InPlace(g: Patterns, lines: seq<string>, startLine: int, blocks: seq<Block>, upTo: nat) {
    forall i :: 0 <= i < |blocks| ==> BlockBefore(g, lines, startLine, blocks[i], upTo)
  }

  ghost predicate BlockBefore(g: Patterns, lines: seq<string>, startLine: int, b: Block, upTo: nat) {
    && startLine <= b.lineStart <= b.lineEnd < startLine + upTo
    && IsBlockAt(g, lines, startLine, b, b.lineStart - startLine, b.lineEnd - startLine)
  }

  /** No non-blank line before `upTo` is left out. */
  ghost predicate AllCovered(lines: seq<string>, startLine: int, blocks: seq<Block>, upTo: nat)
    requires upTo <= |lines|
  {
    forall k :: 0 <= k < upTo && !Blank(lines[k]) ==> Covered(startLine, blocks, k)
  }

  ghost predicate Covered(startLine: int, blocks: seq<Block>, k: nat) {
    exists i :: 0 <= i < |blocks| && Covers(blocks[i], startLine, k)
  }

  /** The blocks are exactly those of the lines before `upTo`. */
  ghost predicate ParsesTo(g: Patterns, lines: seq<string>, startLine: int, blocks: seq<Block>, upTo: nat)
    requires upTo <= |lines|
  {
    && InPlace(g, lines, startLine, blocks, upTo)
    && LinesIncrease(blocks)
    && AllCovered(lines, startLine, blocks, upTo)
    && PathsFollowOutline(blocks)
  }

  // ---- the heading stack -------------------------------------------------

  /** The parser's stack after `headings`: level and title of each open one. */
  ghost function StackOf(headings: seq<Block>): (stack: seq<(nat, string)>) {
    var open := Open(Levels(headings));
    seq(|open|, k requires 0 <= k < |open| => (LevelOf(headings[open[k]]), headings[open[k]].content))
  }

  function TitlesOf(stack: seq<(nat, string)>): seq<string> {
    seq(|stack|, k requires 0 <= k < |stack| => stack[k].1)
  }

  lemma StackTitles(headings: seq<Block>)
    ensures TitlesOf(StackOf(headings)) == OpenTitles(headings)
  {
  }

  /** Pop every entry at or below `level`, then push the new heading. */
  method PushHeading(stack: seq<(nat, string)>, level: nat, title: string, ghost headings: seq<Block>, ghost h: Block)
    returns (pushed: seq<(nat, string)>)
    requires stack == StackOf(headings)
    requires h.level == Some(level) && h.content == title
    ensures pushed == StackOf(headings + [h])
  {
    hide StackOf;
    pushed := stack;
    while pushed != [] && pushed[|pushed|-1].0 >= level
      invariant |pushed| <= |stack| && pushed == stack[..|pushed|]
      invariant forall q :: |pushed| <= q < |stack| ==> stack[q].0 >= level
    {
      pushed := pushed[..|pushed|-1];
    }
    PoppedStack(headings, h, level, |pushed|);
    pushed := pushed + [(level, title)];
  }

  lemma PoppedStack(headings: seq<Block>, h: Block, level: nat, p: nat)
    requires h.level == Some(level) && p <= |StackOf(headings)|
    requires p > 0 ==> StackOf(headings)[p-1].0 < level
    requires forall q :: p <= q < |StackOf(headings)| ==> StackOf(headings)[q].0 >= level
    ensures StackOf(headings + [h]) == StackOf(headings)[..p] + [(level, h.content)]
  {
    hide Open, OpenUpTo, IsOpen;
    var levels, open := Levels(headings), Open(Levels(headings));
    assert forall q :: 0 <= q < |open| ==> levels[open[q]] == StackOf(headings)[q].0;
    PopThenPush(Levels(headings), level, p);
    LevelsSnoc(headings, h);
  }

  // ---- the scans that find where a block ends -----------------------------

  method FenceEnd(g: Patterns, lines: seq<string>, i: nat, mark: char) returns (end: nat)
    requires i < |lines| && g.fence(lines[i]) == Some(mark)
    ensures i <= end < |lines| && EndsAt(g, lines, i, OpensFence(mark), end)
  {
    var j := i + 1;
    while j < |lines| && g.fence(lines[j]) != Some(mark)
      invariant i < j <= |lines|
      invariant forall k :: i < k < j ==> g.fence(lines[k]) != Some(mark)
    {
      j := j + 1;
    }
    end := if j < |lines| then j else |lines| - 1;
  }

  method RunEnd(g: Patterns, r: Run, lines: seq<string>, i: nat) returns (j: nat)
    requires i < |lines| && InRun(g, r, lines[i])
    ensures i < j <= |lines| && LongestRun(g, r, lines, i, j - 1)
  {
    j := i;
    while j < |lines| && InRun(g, r, lines[j])
      invariant i <= j <= |lines|
      invariant forall k :: i <= k < j ==> InRun(g, r, lines[k])
    {
      j := j + 1;
    }
  }

  method IndentedEnd(g: Patterns, lines: seq<string>, i: nat) returns (last: nat)
    requires i < |lines| && !Blank(lines[i]) && g.indented(lines[i])
    ensures EndsAt(g, lines, i, OpensIndented, last)
    ensures i <= last < |lines|
  {
    last := i;
    var j := i;
    while j < |lines| && (Blank(lines[j]) || g.indented(lines[j]))
      invariant i <= last < |lines| && i <= j <= |lines| && last <= j && (j > i ==> last < j)
      invariant !Blank(lines[last])
      invariant forall k :: i <= k < j ==> InRun(g, IndentedRun, lines[k])
      invariant forall k :: last < k < j ==> Blank(lines[k])
    {
      if !Blank(lines[j]) {
        last := j;
      }
      j := j + 1;
    }
    assert LongestRun(g, IndentedRun, lines, i, j - 1) && BlankTail(lines, last, j - 1);
  }

  method ParagraphEnd(g: Patterns, lines: seq<string>, i: nat) returns (j: nat)
    requires i < |lines| && !Blank(lines[i])
    ensures i < j <= |lines| && EndsAt(g, lines, i, OpensParagraph, j - 1)
  {
    j := i;
    while j < |lines| && !Blank(lines[j])
      invariant i <= j <= |lines|
      invariant forall k :: i <= k < j ==> !Blank(lines[k])
      invariant forall k :: i < k < j ==> !Interrupts(g, lines[k])
    {
      if j > i && Interrupts(g, lines[j]) {
        break;
      }
      j := j + 1;
    }
  }

  method ListEnd(g: Patterns, lines: seq<string>, i: nat, path: seq<string>, lineno: int)
    returns (j: nat, children: seq<Block>)
    requires i < |lines| && !Blank(lines[i]) && g.listItem(lines[i])
    ensures i < j && EndsAt(g, lines, i, OpensList, j - 1)
    ensures j <= |lines| && children == ItemsOf(g, lines[i..j], path, lineno)
  {
    hide Strip, Blank;
    j, children := i, [];
    while j < |lines| && !Blank(lines[j]) && (g.listItem(lines[j]) || StartsIndented(lines[j]))
      invariant i <= j <= |lines|
      invariant forall k :: i <= k < j ==> InRun(g, ListRun, lines[k])
      invariant children == ItemsOf(g, lines[i..j], path, lineno)
    {
      assert lines[i..j+1][..j-i] == lines[i..j];
      if g.listItem(lines[j]) {
        children := children + [Block(LIST_ITEM, Strip(lines[j]), lineno, lineno, None, path, [])];
      }
      j := j + 1;
    }
  }

  /** The block that starts at line `i`, which is neither blank nor a heading. */
  method TextBlock(g: Patterns, lines: seq<string>, startLine: int, i: nat, path: seq<string>) returns (b: Block)
    requires i < |lines| && !Blank(lines[i]) && g.heading(lines[i]).None?
    ensures b.headingPath == path && b.kind != HEADING
    ensures b.lineStart == startLine + i && i <= b.lineEnd - startLine < |lines|
    ensures IsBlockAt(g, lines, startLine, b, i, b.lineEnd - startLine)
  {
    hide LongestRun, FenceRun, TrimmedRun, ParagraphRun, Join, Dedented;
    var line, lineno := lines[i], startLine + i;
    if g.fence(line).Some? {
      var end := FenceEnd(g, lines, i, g.fence(line).value);
      b := Block(CODE_BLOCK, Join(lines[i..end+1], "\n"), lineno, startLine + end, None, path, []);
    } else if g.table(line) {
      var j := RunEnd(g, TableRun, lines, i);
      b := Block(TABLE, Join(lines[i..j], "\n"), lineno, startLine + j - 1, None, path, []);
    } else if g.indented(line) && !g.listItem(line) {
      var last := IndentedEnd(g, lines, i);
      b := Block(CODE_BLOCK, Join(Dedented(lines[i..last+1]), "\n"), lineno, startLine + last, None, path, []);
    } else if g.listItem(line) {
      var j, children := ListEnd(g, lines, i, path, lineno);
      b := Block(LIST, Join(lines[i..j], "\n"), lineno, startLine + j - 1, None, path, children);
    } else if g.quote(line) {
      var j := RunEnd(g, QuoteRun, lines, i);
      b := Block(QUOTE, Join(lines[i..j], "\n"), lineno, startLine + j - 1, None, path, []);
    } else {
      var j := ParagraphEnd(g, lines, i);
      b := Block(PARAGRAPH, Join(lines[i..j], "\n"), lineno, startLine + j - 1, None, path, []);
    }
  }

  /** The block that starts at line `i`, and the heading stack from there on. */
  method NextBlock(g: Patterns, lines: seq<string>, startLine: int, i: nat, stack: seq<(nat, string)>,
                   ghost headings: seq<Block>)
    returns (b: Block, after: seq<(nat, string)>)
    requires i < |lines| && !Blank(lines[i]) && stack == StackOf(headings)
    ensures b.lineStart == startLine + i && i <= b.lineEnd - startLine < |lines|
    ensures IsBlockAt(g, lines, startLine, b, i, b.lineEnd - startLine)
    ensures after == StackOf(headings + if b.kind == HEADING then [b] else [])
    ensures b.headingPath == TitlesOf(after)
  {
    if g.heading(lines[i]).Some? {
      var (level, title) := g.heading(lines[i]).value;
      ghost var h := Block(HEADING, title, startLine + i, startLine + i, Some(level), [], []);
      after := PushHeading(stack, level, title, headings, h);
      b := Block(HEADING, title, startLine + i, startLine + i, Some(level), TitlesOf(after), []);
      SameOutline(headings, h, b);
    } else {
      after := stack;
      b := TextBlock(g, lines, startLine, i, TitlesOf(stack));
      assert headings + [] == headings;
    }
  }

  /** `_parse_blocks` */
  method ParseBlocks(g: Patterns, lines: seq<string>, startLine: int) returns (blocks: seq<Block>)
    ensures ParsesTo(g, lines, startLine, blocks, |lines|)
  {
    hide *;
    blocks := [];
    var stack: seq<(nat, string)> := [];
    NothingParsed(g, lines, startLine);
    var i := 0;
    while i < |lines|
      invariant 0 <= i <= |lines|
      invariant ParsesTo(g, lines, startLine, blocks, i)
      invariant stack == StackOf(Headings(blocks))
    {
      if Blank(lines[i]) {
        ParsesBlank(g, lines, startLine, blocks, i);
        i := i + 1;
      } else {
        var b;
        b, stack := NextBlock(g, lines, startLine, i, stack, Headings(blocks));
        HeadingsSnoc(blocks, b);
        StackTitles(Headings(blocks + [b]));
        ParsesOneMore(g, lines, startLine, blocks, i, b);
        i := b.lineEnd - startLine + 1;
        blocks := blocks + [b];
      }
    }
  }

  lemma NothingParsed(g: Patterns, lines: seq<string>, startLine: int)
    ensures ParsesTo(g, lines, startLine, [], 0)
    ensures StackOf(Headings([])) == []
  {
  }

  /** The stack depends on a heading's level and title only. */
  lemma SameOutline(headings: seq<Block>, h: Block, b: Block)
    requires h.level == b.level && h.content == b.content
    ensures StackOf(headings + [h]) == StackOf(headings + [b])
  {
    hide Open, OpenUpTo, IsOpen;
    assert Levels(headings + [h]) == Levels(headings + [b]);
    var open := Open(Levels(headings + [h]));
    assert forall k :: 0 <= k < |open| ==> open[k] < |headings| + 1;
  }

  lemma ParsesBlank(g: Patterns, lines: seq<string>, startLine: int, blocks: seq<Block>, i: nat)
    requires i < |lines| && ParsesTo(g, lines, startLine, blocks, i) && Blank(lines[i])
    ensures ParsesTo(g, lines, startLine, blocks, i + 1)
  {
    forall j | 0 <= j < |blocks| ensures BlockBefore(g, lines, startLine, blocks[j], i + 1) {
      assert BlockBefore(g, lines, startLine, blocks[j], i);
    }
  }

  lemma ParsesOneMore(g: Patterns, lines: seq<string>, startLine: int, blocks: seq<Block>, i: nat, b: Block)
    requires i < |lines| && ParsesTo(g, lines, startLine, blocks, i)
    requires b.lineStart == startLine + i && i <= b.lineEnd - startLine < |lines|
    requires IsBlockAt(g, lines, startLine, b, i, b.lineEnd - startLine)
    requires b.headingPath == OpenTitles(Headings(blocks + [b]))
    ensures ParsesTo(g, lines, startLine, blocks + [b], b.lineEnd - startLine + 1)
  {
    hide IsBlockAt, Headings, OpenTitles, Covered;
    var more, next := blocks + [b], b.lineEnd - startLine + 1;
    forall j | 0 <= j < |more| ensures BlockBefore(g, lines, startLine, more[j], next) {
      if j < |blocks| { assert BlockBefore(g, lines, startLine, blocks[j], i); }
    }
    assert LinesIncrease(more) by {
      forall j | 0 <= j < |blocks| ensures blocks[j].lineEnd < b.lineStart {
        assert BlockBefore(g, lines, startLine, blocks[j], i);
      }
    }
    forall k | 0 <= k < next && !Blank(lines[k]) ensures Covered(startLine, more, k) {
      CoversOneMore(lines, startLine, blocks, i, b, k);
    }
    OutlineOneMore(blocks, b);
  }

  lemma CoversOneMore(lines: seq<string>, startLine: int, blocks: seq<Block>, i: nat, b: Block, k: nat)
    requires i <= |lines| && AllCovered(lines, startLine, blocks, i)
    requires b.lineStart == startLine + i && k <= b.lineEnd - startLine < |lines| && !Blank(lines[k])
    ensures Covered(startLine, blocks + [b], k)
  {
    var more := blocks + [b];
    if k < i {
      assert Covered(startLine, blocks, k);
      var j :| 0 <= j < |blocks| && Covers(blocks[j], startLine, k);
      assert Covers(more[j], startLine, k);
    } else {
      assert Covers(more[|blocks|], startLine, k);
    }
  }

  lemma OutlineOneMore(blocks: seq<Block>, b: Block)
    requires PathsFollowOutline(blocks)
    requires b.headingPath == OpenTitles(Headings(blocks + [b]))
    ensures PathsFollowOutline(blocks + [b])
  {
    hide OpenTitles, Headings;
    var more := blocks + [b];
    forall j | 0 <= j < |more| ensures more[j].headingPath == OpenTitles(Headings(more[..j+1])) {
      assert more[..j+1] == if j < |blocks| then blocks[..j+1] else more;
    }
  }
}
