/** The properties stated of the Markdown scanner's result leave no choice: they have one solution. */
module ParseIsUnique {
  import opened Common
  import opened Text
  import opened HeadingStack
  import opened Ast
  import opened Markdown

  lemma SameRun(g: Patterns, r: Run, lines: seq<string>, a: nat, b: nat, c: nat)
    requires LongestRun(g, r, lines, a, b) && LongestRun(g, r, lines, a, c)
    ensures b == c
  {
  }

  lemma SameTrimmedRun(g: Patterns, lines: seq<string>, a: nat, b: nat, c: nat)
    requires TrimmedRun(g, lines, a, b) && TrimmedRun(g, lines, a, c)
    ensures b == c
  {
    hide Blank, InRun;
    var m: nat :| LongestRun(g, IndentedRun, lines, a, m) && BlankTail(lines, b, m);
    var n: nat :| LongestRun(g, IndentedRun, lines, a, n) && BlankTail(lines, c, n);
    SameRun(g, IndentedRun, lines, a, m, n);
  }

  /** A block's first line determines its last. */
  lemma SameEnd(g: Patterns, lines: seq<string>, a: nat, opener: Opener, b: nat, c: nat)
    requires EndsAt(g, lines, a, opener, b) && EndsAt(g, lines, a, opener, c)
    ensures b == c
  {
    hide TrimmedRun, LongestRun, Blank, Interrupts;
    match opener
    case OpensHeading(_, _) =>
    case OpensFence(_) =>
    case OpensTable => SameRun(g, TableRun, lines, a, b, c);
    case OpensIndented => SameTrimmedRun(g, lines, a, b, c);
    case OpensList => SameRun(g, ListRun, lines, a, b, c);
    case OpensQuote => SameRun(g, QuoteRun, lines, a, b, c);
    case OpensParagraph =>
  }

  lemma SameHeadingPath(blocks: seq<Block>, b: Block, c: Block)
    requires b.kind == c.kind && b.level == c.level && b.content == c.content
    ensures OpenTitles(Headings(blocks + [b])) == OpenTitles(Headings(blocks + [c]))
  {
    HeadingsSnoc(blocks, b);
    HeadingsSnoc(blocks, c);
    if b.kind == HEADING {
      SameOutline(Headings(blocks), b, c);
      StackTitles(Headings(blocks) + [b]);
      StackTitles(Headings(blocks) + [c]);
    } else {
      assert Headings(blocks + [b]) == Headings(blocks + [c]);
    }
  }

  /** Two blocks at the same line after the same blocks are equal. */
  lemma SameBlock(g: Patterns, lines: seq<string>, startLine: int, before: seq<Block>, b: Block, c: Block)
    requires BlockBefore(g, lines, startLine, b, |lines|) && BlockBefore(g, lines, startLine, c, |lines|)
    requires b.lineStart == c.lineStart
    requires b.headingPath == OpenTitles(Headings(before + [b])) && c.headingPath == OpenTitles(Headings(before + [c]))
    ensures b == c
  {
    hide EndsAt, OpenTitles, Headings, ItemsOf, ContentOf, OpenerOf, Blank;
    var from := b.lineStart - startLine;
    SameEnd(g, lines, from, OpenerOf(g, lines[from]), b.lineEnd - startLine, c.lineEnd - startLine);
    SameHeadingPath(before, b, c);
  }

  /** Some block of a parse covers the first line of any block of another. */
  lemma CoveredStart(g: Patterns, lines: seq<string>, startLine: int, bs: seq<Block>, c: Block) returns (i: nat)
    requires AllCovered(lines, startLine, bs, |lines|) && BlockBefore(g, lines, startLine, c, |lines|)
    ensures i < |bs| && bs[i].lineStart <= c.lineStart <= bs[i].lineEnd && c.lineStart <= c.lineEnd
  {
    hide EndsAt, OpenerOf, ContentOf, ItemsOf, Blank;
    var line := c.lineStart - startLine;
    assert Covered(startLine, bs, line);
    i :| 0 <= i < |bs| && Covers(bs[i], startLine, line);
  }

  /** The next block of a parse starts no later than any other parse's next block. */
  lemma NoLaterStart(g: Patterns, lines: seq<string>, startLine: int, bs: seq<Block>, cs: seq<Block>, k: nat)
    requires ParsesTo(g, lines, startLine, bs, |lines|) && ParsesTo(g, lines, startLine, cs, |lines|)
    requires k < |cs| && k <= |bs| && bs[..k] == cs[..k]
    ensures k < |bs| && bs[k].lineStart <= cs[k].lineStart
  {
    hide BlockBefore, PathsFollowOutline, AllCovered;
    assert BlockBefore(g, lines, startLine, cs[k], |lines|);
    var i := CoveredStart(g, lines, startLine, bs, cs[k]);
    forall x | 0 <= x < k ensures bs[x] == cs[x] && cs[x].lineEnd < cs[k].lineStart {
      assert bs[..k][x] == cs[..k][x];
    }
    if i > k {
      assert bs[k].lineStart <= bs[k].lineEnd < bs[i].lineStart;
    }
  }

  /** One document has one parse. */
  lemma {:induction false} ParseIsDetermined(g: Patterns, lines: seq<string>, startLine: int, bs: seq<Block>,
                                             cs: seq<Block>, k: nat)
    requires ParsesTo(g, lines, startLine, bs, |lines|) && ParsesTo(g, lines, startLine, cs, |lines|)
    requires k <= |bs| && k <= |cs| && bs[..k] == cs[..k]
    ensures bs == cs
    decreases |bs| - k
  {
    hide IsBlockAt, OpenTitles, Headings, AllCovered, LinesIncrease;
    if k < |cs| { NoLaterStart(g, lines, startLine, bs, cs, k); }
    if k < |bs| { NoLaterStart(g, lines, startLine, cs, bs, k); }
    if k < |bs| {
      assert bs[..k+1] == bs[..k] + [bs[k]] && cs[..k+1] == cs[..k] + [cs[k]];
      SameBlock(g, lines, startLine, bs[..k], bs[k], cs[k]);
      ParseIsDetermined(g, lines, startLine, bs, cs, k + 1);
    } else {
      assert bs[..k] == bs && cs[..k] == cs;
    }
  }
}
