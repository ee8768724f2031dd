/**
 Front matter and whole documents: `_extract_front_matter` and `MarkdownParser.parse`
 of app/ingestion/parsers/markdown.py. Line numbers refer to the original document
 although the body is joined and split again after the header is cut off.
 */
module FrontMatter {
  import opened Common
  import opened Text
  import opened Ast
  import opened Markdown

  datatype ParseResult = Parsed(title: Option<string>, blocks: seq<Block>) | FileEmpty

  predicate IsDelimiter(line: string) {
    Strip(line) == "---"
  }

  /** The header is the lines between the first line and the first later delimiter, `close`. */
  ghost predicate ClosesHeader(lines: seq<string>, close: nat) {
    && 0 < close < |lines|
    && IsDelimiter(lines[0]) && IsDelimiter(lines[close])
    && forall k :: 0 < k < close ==> !IsDelimiter(lines[k])
  }

  /** `header` is None when the document has no front matter; the body is then the whole text. */
  method ExtractFrontMatter(text: string) returns (header: Option<seq<string>>, body: string, startLine: nat)
    ensures header.None? ==> body == text && startLine == 1 && forall c :: !ClosesHeader(SplitLines(text), c)
    ensures header.Some? ==>
              && startLine >= 3 && ClosesHeader(SplitLines(text), startLine - 2)
              && header.value == SplitLines(text)[1..startLine-2]
              && body == Join(SplitLines(text)[startLine-1..], "\n")
  {
    var lines := SplitLines(text);
    if lines == [] || !IsDelimiter(lines[0]) {
      return None, text, 1;
    }
    var i := 1;
    while i < |lines|
      invariant 1 <= i <= |lines|
      invariant forall k :: 0 < k < i ==> !IsDelimiter(lines[k])
    {
      if IsDelimiter(lines[i]) {
        return Some(lines[1..i]), Join(lines[i+1..], "\n"), i + 2;
      }
      i := i + 1;
    }
    return None, text, 1;
  }

  /** Body line `k` is document line `startLine + k`, and at most a trailing empty line is lost. */
  ghost predicate BodyLinesAreDocumentLines(bodyLines: seq<string>, lines: seq<string>, startLine: nat) {
    && startLine >= 1 && startLine - 1 + |bodyLines| <= |lines|
    && bodyLines == lines[startLine-1..startLine-1+|bodyLines|]
    && forall k :: startLine - 1 + |bodyLines| <= k < |lines| ==> lines[k] == ""
  }

  lemma BodyKeepsLines(text: string, close: nat)
    requires ClosesHeader(SplitLines(text), close)
    ensures BodyLinesAreDocumentLines(SplitLines(Join(SplitLines(text)[close+1..], "\n")), SplitLines(text), close + 2)
  {
    hide SplitLines, IsDelimiter;
    var lines := SplitLines(text);
    var rest := lines[close+1..];
    SplitOfJoin(rest);
    RestIsDocumentLines(lines, close, SplitLines(Join(rest, "\n")));
  }

  lemma RestIsDocumentLines(lines: seq<string>, close: nat, bodyLines: seq<string>)
    requires close < |lines|
    requires var rest := lines[close+1..];
      bodyLines == if rest != [] && rest[|rest|-1] == "" then rest[..|rest|-1] else rest
    ensures BodyLinesAreDocumentLines(bodyLines, lines, close + 2)
  {
  }

  /** What the blocks say about the document's own lines. */
  ghost predicate DescribesDocument(g: Patterns, lines: seq<string>, startLine: nat, blocks: seq<Block>) {
    && startLine >= 1
    && LinesIncrease(blocks)
    && PathsFollowOutline(blocks)
    && (forall i :: 0 <= i < |blocks| ==> startLine <= blocks[i].lineStart && OriginalText(g, lines, blocks[i]))
    && (forall k :: startLine - 1 <= k < |lines| && !Blank(lines[k]) ==> Covered(1, blocks, k))
  }

  /** Apart from headings and dedented code, a block's content is its document lines unchanged. */
  ghost predicate OriginalText(g: Patterns, lines: seq<string>, b: Block) {
    && 1 <= b.lineStart <= b.lineEnd <= |lines|
    && !Blank(lines[b.lineStart-1])
    && var opener := OpenerOf(g, lines[b.lineStart-1]);
    && b.kind == KindOf(opener)
    && b.content == ContentOf(opener, lines[b.lineStart-1..b.lineEnd])
  }

  lemma BlockHasOriginalText(g: Patterns, lines: seq<string>, bodyLines: seq<string>, startLine: nat, b: Block)
    requires BlockBefore(g, bodyLines, startLine, b, |bodyLines|)
    requires BodyLinesAreDocumentLines(bodyLines, lines, startLine)
    ensures OriginalText(g, lines, b)
  {
    hide EndsAt, ContentOf, OpenerOf, ItemsOf, Blank;
    var from, to := b.lineStart - startLine, b.lineEnd - startLine;
    SliceOfSlice(lines, startLine - 1, startLine - 1 + |bodyLines|, from, to + 1);
    assert bodyLines[from] == bodyLines[from..to+1][0];
  }

  lemma SliceOfSlice<T>(s: seq<T>, a: int, b: int, c: int, d: int)
    requires 0 <= a <= b <= |s| && 0 <= c <= d <= b - a
    ensures s[a..b][c..d] == s[a+c..a+d]
  {
    var outer, inner := s[a..b], s[a+c..a+d];
    forall k | 0 <= k < d - c ensures outer[c..d][k] == inner[k] {
      assert outer[c+k] == s[a+c+k];
    }
  }

  lemma DocumentLineIsCovered(lines: seq<string>, bodyLines: seq<string>, startLine: nat, blocks: seq<Block>, k: nat)
    requires AllCovered(bodyLines, startLine, blocks, |bodyLines|)
    requires BodyLinesAreDocumentLines(bodyLines, lines, startLine)
    requires startLine - 1 <= k < |lines| && !Blank(lines[k])
    ensures Covered(1, blocks, k)
  {
    var j := k - (startLine - 1);
    EmptyIsBlank();
    assert bodyLines[j] == lines[k];
    assert Covered(startLine, blocks, j);
    var i :| 0 <= i < |blocks| && Covers(blocks[i], startLine, j);
    assert Covers(blocks[i], 1, k);
  }

  lemma BlocksDescribeDocument(g: Patterns, lines: seq<string>, bodyLines: seq<string>, startLine: nat,
                               blocks: seq<Block>)
    requires ParsesTo(g, bodyLines, startLine, blocks, |bodyLines|)
    requires BodyLinesAreDocumentLines(bodyLines, lines, startLine)
    ensures DescribesDocument(g, lines, startLine, blocks)
  {
    hide BodyLinesAreDocumentLines, OriginalText, PathsFollowOutline, LinesIncrease, IsBlockAt, Blank, Covered;
    assert startLine >= 1 by { LinesStartAtOne(bodyLines, lines, startLine); }
    forall i | 0 <= i < |blocks| ensures startLine <= blocks[i].lineStart && OriginalText(g, lines, blocks[i]) {
      assert BlockBefore(g, bodyLines, startLine, blocks[i], |bodyLines|);
      BlockHasOriginalText(g, lines, bodyLines, startLine, blocks[i]);
    }
    forall k | startLine - 1 <= k < |lines| && !Blank(lines[k]) ensures Covered(1, blocks, k) {
      DocumentLineIsCovered(lines, bodyLines, startLine, blocks, k);
    }
  }

  lemma LinesStartAtOne(bodyLines: seq<string>, lines: seq<string>, startLine: nat)
    requires BodyLinesAreDocumentLines(bodyLines, lines, startLine)
    ensures startLine >= 1
  {
  }

  lemma EmptyIsBlank()
    ensures Blank("")
  {
  }

  function RemoveByteOrderMark(text: string): string {
    if text != "" && text[0] == '\U{FEFF}' then text[1..] else text
  }

  /** Where the body starts: after the header if there is one, else at line 1. */
  ghost predicate BodyStartsAt(lines: seq<string>, startLine: nat) {
    if startLine == 1 then forall c :: !ClosesHeader(lines, c)
    else startLine >= 3 && ClosesHeader(lines, startLine - 2)
  }

  ghost predicate IsFirstHeading(blocks: seq<Block>, i: int) {
    0 <= i < |blocks| && blocks[i].kind == HEADING && forall k :: 0 <= k < i ==> blocks[k].kind != HEADING
  }

  /** `_first_heading` */
  method FirstHeading(blocks: seq<Block>) returns (title: Option<string>)
    ensures title == if Headings(blocks) == [] then None else Some(Headings(blocks)[0].content)
    ensures title.None? <==> forall i :: 0 <= i < |blocks| ==> blocks[i].kind != HEADING
    ensures title.Some? ==> exists i :: IsFirstHeading(blocks, i) && title == Some(blocks[i].content)
  {
    for i := 0 to |blocks|
      invariant Headings(blocks[..i]) == []
      invariant forall k :: 0 <= k < i ==> blocks[k].kind != HEADING
    {
      assert blocks[..i+1][..i] == blocks[..i];
      if blocks[i].kind == HEADING {
        HeadingsOfPrefix(blocks, i + 1);
        assert IsFirstHeading(blocks, i);
        return Some(blocks[i].content);
      }
    }
    assert blocks[..|blocks|] == blocks;
    title := None;
  }

  /** The header's title if it has one that is not empty, else the first heading. */
  ghost predicate IsTitle(title: Option<string>, header: Option<string>, blocks: seq<Block>) {
    title == if header.Some? && header.value != "" then header
             else if Headings(blocks) == [] then None
             else Some(Headings(blocks)[0].content)
  }

  /** The header lines of a document whose body starts at `startLine`. */
  ghost function HeaderLines(lines: seq<string>, startLine: nat): seq<string> {
    if 3 <= startLine <= |lines| + 1 then lines[1..startLine-2] else []
  }

  /**
   `MarkdownParser.parse` on decoded text, without the metadata dictionary; `titleOf` is the
   title entry of the parsed header lines, and there is none without a header. The blocks are
   the parse of the document's lines from `startLine` on.
   */
  method ParseDocument(g: Patterns, titleOf: seq<string> -> Option<string>, source: string)
    returns (r: ParseResult, ghost startLine: nat, ghost bodyLines: seq<string>)
    ensures r.FileEmpty? <==> Blank(RemoveByteOrderMark(source))
    ensures r.Parsed? ==>
              && BodyLinesAreDocumentLines(bodyLines, SplitLines(RemoveByteOrderMark(source)), startLine)
              && ParsesTo(g, bodyLines, startLine, r.blocks, |bodyLines|)
    ensures r.Parsed? ==>
              var lines := SplitLines(RemoveByteOrderMark(source));
              && BodyStartsAt(lines, startLine) && DescribesDocument(g, lines, startLine, r.blocks)
              && IsTitle(r.title, if startLine == 1 then None else titleOf(HeaderLines(lines, startLine)), r.blocks)
  {
    hide DescribesDocument, ParsesTo, Headings;
    var text := RemoveByteOrderMark(source);
    startLine, bodyLines := 1, [];
    if Blank(text) {
      return FileEmpty, startLine, bodyLines;
    }
    var header, body, start := ExtractFrontMatter(text);
    startLine, bodyLines := start, SplitLines(body);
    var blocks := ParseBlocks(g, SplitLines(body), start);
    if header.Some? {
      BodyKeepsLines(text, start - 2);
    }
    BlocksDescribeDocument(g, SplitLines(text), SplitLines(body), start, blocks);
    var title := if header.Some? then titleOf(header.value) else None;
    if title.None? || title.value == "" {
      title := FirstHeading(blocks);
    }
    r := Parsed(title, blocks);
  }
}
