/**
 The blocks of the Markdown scanner, kind by kind, from the document's lines alone: which
 kind a line opens, how far the block goes, and what it holds.
 */
module BlockReading {
  import opened Common
  import opened Text
  import opened Ast
  import opened Markdown

  /** One level of indentation removed: one tab, or as many spaces as there are up to four. */
  ghost predicate IsDedented(line: string, d: string) {
    && |d| <= |line| && d == line[|line|-|d|..]
    && var n := |line| - |d|;
       if line != "" && line[0] == '\t' then n == 1
       else n <= 4 && (forall k :: 0 <= k < n ==> line[k] == ' ') && (n == 4 || d == "" || d[0] != ' ')
  }

  lemma {:induction false} LStripSpacesIs(line: string)
    ensures |LStripSpaces(line)| <= |line| && LStripSpaces(line) == line[|line|-|LStripSpaces(line)|..]
    ensures forall k :: 0 <= k < |line| - |LStripSpaces(line)| ==> line[k] == ' '
    ensures LStripSpaces(line) != "" ==> LStripSpaces(line)[0] != ' '
  {
    if line != "" && line[0] == ' ' {
      LStripSpacesIs(line[1..]);
    }
  }

  lemma DedentIs(line: string)
    ensures IsDedented(line, DedentCode(line))
  {
    hide LStripSpaces;
    LStripSpacesIs(line);
    if |line| - |LStripSpaces(line)| >= 4 {
      assert line[..4] == "    ";
    }
    assert "    " <= line ==> forall k :: 0 <= k < 4 ==> line[k] == "    "[k];
  }

  /** The text of lines `a` to `z`. */
  function TextOf(lines: seq<string>, a: nat, z: nat): string
    requires a <= z < |lines|
  {
    Join(lines[a..z+1], "\n")
  }

  /** `a` to `z` is a longest run of lines that are so. */
  ghost predicate IsRun(lines: seq<string>, a: nat, z: nat, so: string -> bool) {
    && a <= z < |lines| && (forall k :: a <= k <= z ==> so(lines[k]))
    && (z + 1 < |lines| ==> !so(lines[z+1]))
  }

  /** The code ends at the first fence of its own character after the first line, or with the document. */
  ghost predicate IsFenced(g: Patterns, lines: seq<string>, a: nat, z: nat, mark: char) {
    && a <= z < |lines| && (forall k :: a < k < z ==> g.fence(lines[k]) != Some(mark))
    && (z == |lines| - 1 || (z > a && g.fence(lines[z]) == Some(mark)))
  }

  /** Indented code: indented and blank lines up to `z`, the last indented one before a plain line or the end. */
  ghost predicate IsIndentedCode(g: Patterns, lines: seq<string>, a: nat, z: nat, b: Block) {
    && a <= z < |lines| && g.indented(lines[z]) && !AllSpace(lines[z])
    && (forall k :: a <= k <= z ==> AllSpace(lines[k]) || g.indented(lines[k]))
    && (exists m: nat :: EndsBlank(g, lines, z, m))
    && exists ds: seq<string> :: AreDedented(lines, a, z, ds) && b.content == Join(ds, "\n")
  }

  ghost predicate EndsBlank(g: Patterns, lines: seq<string>, z: nat, m: nat) {
    && z <= m < |lines| && (forall k :: z < k <= m ==> AllSpace(lines[k]))
    && (m + 1 < |lines| ==> !AllSpace(lines[m+1]) && !g.indented(lines[m+1]))
  }

  ghost predicate AreDedented(lines: seq<string>, a: nat, z: nat, ds: seq<string>)
    requires a <= z < |lines|
  {
    |ds| == z - a + 1 && forall k :: 0 <= k < |ds| ==> IsDedented(lines[a+k], ds[k])
  }

  /** A list has a child for each of its item lines, in order, all of them at the list's first line. */
  ghost predicate AreItems(g: Patterns, lines: seq<string>, b: Block) {
    exists at :: ItemsAt(g, lines, at, b.children, b.headingPath, b.lineStart)
  }

  ghost predicate ItemsAt(g: Patterns, lines: seq<string>, at: seq<nat>, items: seq<Block>, path: seq<string>,
                          lineno: int) {
    && |at| == |items|
    && (forall k, l :: 0 <= k < l < |at| ==> at[k] < at[l])
    && (forall k :: 0 <= k < |at| ==> at[k] < |lines| && g.listItem(lines[at[k]]))
    && (forall i :: 0 <= i < |lines| && g.listItem(lines[i]) ==> i in at)
    && (forall k :: 0 <= k < |at| ==> IsItem(lines[at[k]], items[k], path, lineno))
  }

  ghost predicate IsItem(line: string, item: Block, path: seq<string>, lineno: int) {
    IsStripped(line, item.content) && item == Block(LIST_ITEM, item.content, lineno, lineno, None, path, [])
  }

  /** The paragraph goes on up to a blank line or one that starts another block. */
  ghost predicate IsParagraph(g: Patterns, lines: seq<string>, a: nat, z: nat) {
    && a <= z < |lines| && (forall k :: a <= k <= z ==> !AllSpace(lines[k]))
    && (forall k :: a < k <= z ==> !StartsBlock(g, lines[k]))
    && (z + 1 < |lines| ==> AllSpace(lines[z+1]) || StartsBlock(g, lines[z+1]))
  }

  /** Indentation does not interrupt a paragraph. */
  ghost predicate StartsBlock(g: Patterns, line: string) {
    g.heading(line) != None || g.fence(line) != None || g.table(line) || g.listItem(line) || g.quote(line)
  }

  /** Block `b`, which goes from line `a` to line `z`, is of the kind its first line opens, and has its text. */
  ghost predicate Reads(g: Patterns, lines: seq<string>, a: nat, z: nat, b: Block)
    requires a <= z < |lines|
  {
    var line := lines[a];
    if g.heading(line) != None then
      && b.kind == HEADING && a == z && b.children == []
      && b.level == Some(g.heading(line).value.0) && b.content == g.heading(line).value.1
    else
      && b.level == None && (b.kind != LIST ==> b.children == [])
      && if g.fence(line) != None then
           b.kind == CODE_BLOCK && b.content == TextOf(lines, a, z) && IsFenced(g, lines, a, z, g.fence(line).value)
         else if g.table(line) then
           b.kind == TABLE && b.content == TextOf(lines, a, z) && IsRun(lines, a, z, g.table)
         else if g.listItem(line) then
           && b.kind == LIST && b.content == TextOf(lines, a, z) && AreItems(g, lines[a..z+1], b)
           && IsRun(lines, a, z, l => !Blank(l) && (g.listItem(l) || " " <= l || "\t" <= l))
         else if g.indented(line) then
           b.kind == CODE_BLOCK && IsIndentedCode(g, lines, a, z, b)
         else if g.quote(line) then
           b.kind == QUOTE && b.content == TextOf(lines, a, z) && IsRun(lines, a, z, g.quote)
         else
           b.kind == PARAGRAPH && b.content == TextOf(lines, a, z) && IsParagraph(g, lines, a, z)
  }

  lemma {:induction false} ItemsAre(g: Patterns, lines: seq<string>, path: seq<string>, lineno: int)
    returns (at: seq<nat>)
    ensures ItemsAt(g, lines, at, ItemsOf(g, lines, path, lineno), path, lineno)
  {
    hide Strip, IsStripped, ItemsAt, IsItem;
    if lines == [] {
      at := [];
      NoItems(g, path, lineno);
    } else {
      var init, line := lines[..|lines|-1], lines[|lines|-1];
      at := ItemsAre(g, init, path, lineno);
      ItemNext(g, init, line, at, ItemsOf(g, init, path, lineno), path, lineno);
      assert lines == init + [line];
      if g.listItem(line) {
        at := at + [|init|];
      } else {
        assert ItemsOf(g, lines, path, lineno) == ItemsOf(g, init, path, lineno);
      }
    }
  }

  lemma NoItems(g: Patterns, path: seq<string>, lineno: int)
    ensures ItemsAt(g, [], [], [], path, lineno)
  {
  }

  lemma ItemNext(g: Patterns, lines: seq<string>, line: string, at: seq<nat>, items: seq<Block>, path: seq<string>,
                 lineno: int)
    requires ItemsAt(g, lines, at, items, path, lineno)
    ensures g.listItem(line) ==>
      ItemsAt(g, lines + [line], at + [|lines|],
              items + [Block(LIST_ITEM, Strip(line), lineno, lineno, None, path, [])], path, lineno)
    ensures !g.listItem(line) ==> ItemsAt(g, lines + [line], at, items, path, lineno)
  {
    hide Strip, IsStripped, IsItem;
    ItemIs(line, path, lineno);
    var more, at' := lines + [line], at + [|lines|];
    assert forall i :: 0 <= i < |lines| ==> more[i] == lines[i];
    if g.listItem(line) {
      forall i | 0 <= i < |more| && g.listItem(more[i]) ensures i in at' {
        if i < |lines| {
          assert i in at;
        } else {
          assert at'[|at|] == i;
        }
      }
    }
  }

  lemma ItemIs(line: string, path: seq<string>, lineno: int)
    ensures IsItem(line, Block(LIST_ITEM, Strip(line), lineno, lineno, None, path, []), path, lineno)
  {
    hide Strip, IsStripped;
    StripIs(line);
  }

  lemma AllBlankOrNot(lines: seq<string>)
    ensures forall k :: 0 <= k < |lines| ==> (Blank(lines[k]) <==> AllSpace(lines[k]))
  {
    hide Blank, AllSpace;
    forall k | 0 <= k < |lines| ensures Blank(lines[k]) <==> AllSpace(lines[k]) {
      BlankIsAllSpace(lines[k]);
    }
  }

  lemma IndentedReads(g: Patterns, lines: seq<string>, a: nat, z: nat, b: Block)
    requires a <= z < |lines| && !Blank(lines[a]) && g.indented(lines[a])
    requires TrimmedRun(g, lines, a, z) && b.content == Join(Dedented(lines[a..z+1]), "\n")
    ensures IsIndentedCode(g, lines, a, z, b)
  {
    hide Blank, AllSpace, Join, DedentCode, IsDedented;
    AllBlankOrNot(lines);
    var m: nat :| LongestRun(g, IndentedRun, lines, a, m) && BlankTail(lines, z, m);
    assert EndsBlank(g, lines, z, m);
    assert InRun(g, IndentedRun, lines[z]);
    var ds := Dedented(lines[a..z+1]);
    forall k | 0 <= k < |ds| ensures IsDedented(lines[a+k], ds[k]) {
      DedentIs(lines[a+k]);
    }
    assert AreDedented(lines, a, z, ds);
  }

  lemma ListReads(g: Patterns, lines: seq<string>, a: nat, z: nat, b: Block)
    requires a <= z < |lines| && LongestRun(g, ListRun, lines, a, z)
    requires b.children == ItemsOf(g, lines[a..z+1], b.headingPath, b.lineStart)
    ensures AreItems(g, lines[a..z+1], b)
    ensures IsRun(lines, a, z, l => !Blank(l) && (g.listItem(l) || " " <= l || "\t" <= l))
  {
    hide Blank, ItemsOf, ItemsAt;
    var at := ItemsAre(g, lines[a..z+1], b.headingPath, b.lineStart);
    assert forall l: string :: StartsIndented(l) <==> " " <= l || "\t" <= l;
  }

  lemma ParagraphReads(g: Patterns, lines: seq<string>, a: nat, z: nat)
    requires a <= z < |lines| && ParagraphRun(g, lines, a, z)
    ensures IsParagraph(g, lines, a, z)
  {
    hide Blank, AllSpace;
    AllBlankOrNot(lines);
  }

  lemma BlockReads(g: Patterns, lines: seq<string>, startLine: int, b: Block, a: nat, z: nat)
    requires a <= z < |lines| && IsBlockAt(g, lines, startLine, b, a, z)
    ensures Reads(g, lines, a, z, b) && !AllSpace(lines[a])
  {
    hide Blank, AllSpace, Join, Dedented, ItemsOf, IsIndentedCode, TrimmedRun, ParagraphRun, IsParagraph, AreItems;
    BlankIsAllSpace(lines[a]);
    var opener := OpenerOf(g, lines[a]);
    if opener.OpensIndented? {
      IndentedReads(g, lines, a, z, b);
    } else if opener.OpensList? {
      ListReads(g, lines, a, z, b);
    } else if opener.OpensParagraph? {
      ParagraphReads(g, lines, a, z);
    }
  }

  /**
   Every block of a parse is what its lines say: of the kind its first line opens, as long as
   that kind goes on, with the text of its lines; and its first line is not blank.
   */
  lemma EveryBlockReads(g: Patterns, lines: seq<string>, startLine: int, blocks: seq<Block>, i: nat)
    requires ParsesTo(g, lines, startLine, blocks, |lines|) && i < |blocks|
    ensures startLine <= blocks[i].lineStart <= blocks[i].lineEnd < startLine + |lines|
    ensures var a, z := blocks[i].lineStart - startLine, blocks[i].lineEnd - startLine;
      Reads(g, lines, a, z, blocks[i]) && !AllSpace(lines[a])
  {
    hide IsBlockAt, Reads, AllSpace, LinesIncrease, AllCovered, PathsFollowOutline;
    assert BlockBefore(g, lines, startLine, blocks[i], |lines|);
    BlockReads(g, lines, startLine, blocks[i], blocks[i].lineStart - startLine, blocks[i].lineEnd - startLine);
  }
}
