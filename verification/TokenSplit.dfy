/**
 Token-budget splitting of long text: app/ingestion/chunkers/token_split.py. The
 counter is a parameter, any function from text to a number.
 */
module TokenSplit {
  import opened Common
  import opened Text
  import opened Packing

  /** The character-based estimate used when no tokenizer can be loaded. */
  function FallbackCount(text: string): (n: nat)
    ensures n >= 1 && (|text| < 8 ==> n == 1) && (|text| >= 4 ==> 4 * n <= |text| < 4 * n + 4)
  {
    if |text| / 4 > 1 then |text| / 4 else 1
  }

  /** Adding text on either side never lowers the count. */
  ghost predicate MonotoneCounter(count: string -> nat) {
    forall a, s, b :: count(s) <= count(a + s + b)
  }

  lemma FallbackIsMonotone()
    ensures MonotoneCounter(FallbackCount)
  {
    forall a: string, s: string, b: string ensures FallbackCount(s) <= FallbackCount(a + s + b) {
      assert |a + s + b| >= |s|;
    }
  }

  predicate EndsSentence(c: char) {
    c == '.' || c == '!' || c == '?' || c == ';' || c == '\n' ||
    c == '\U{3002}' || c == '\U{FF01}' || c == '\U{FF1F}' || c == '\U{FF1B}'
  }

  function FirstSentenceEnd(text: string): (i: nat)
    ensures i <= |text|
    ensures i < |text| ==> EndsSentence(text[i])
    ensures forall k :: 0 <= k < i ==> !EndsSentence(text[k])
  {
    if text == "" || EndsSentence(text[0]) then 0 else 1 + FirstSentenceEnd(text[1..])
  }

  /** Text whose only sentence end is its last character. */
  predicate IsSentence(piece: string) {
    piece != "" && EndsSentence(piece[|piece|-1]) && HoldsNoEnd(piece[..|piece|-1])
  }

  predicate HoldsNoEnd(piece: string) {
    forall k :: 0 <= k < |piece| ==> !EndsSentence(piece[k])
  }

  /** The text cut behind its first sentence end, and the rest likewise; what follows the last one may be empty. */
  function Sentences(text: string): (pieces: seq<string>)
    ensures pieces != []
    decreases |text|
  {
    var i := FirstSentenceEnd(text);
    if i == |text| then [text] else [text[..i+1]] + Sentences(text[i+1..])
  }

  /** A text and what it is cut into: the first sentence and the rest. */
  lemma SentencesFront(text: string) returns (first: string, rest: string)
    requires FirstSentenceEnd(text) < |text|
    ensures text == first + rest && |rest| < |text| && IsSentence(first)
    ensures Sentences(text) == [first] + Sentences(rest)
  {
    hide FirstSentenceEnd, EndsSentence;
    var i := FirstSentenceEnd(text);
    first, rest := text[..i+1], text[i+1..];
    assert first[..|first|-1] == text[..i];
  }

  lemma OnePiece(text: string)
    requires FirstSentenceEnd(text) == |text|
    ensures Sentences(text) == [text] && HoldsNoEnd(text)
  {
    hide FirstSentenceEnd, EndsSentence;
  }

  /** The split keeps the text, and cuts behind every sentence end and nowhere else. */
  lemma {:induction false} CutBehindEveryEnd(text: string)
    ensures var pieces := Sentences(text);
      && Concat(pieces) == text
      && HoldsNoEnd(pieces[|pieces|-1])
      && forall i :: 0 <= i < |pieces| - 1 ==> IsSentence(pieces[i])
    decreases |text|
  {
    hide Sentences, FirstSentenceEnd, IsSentence, HoldsNoEnd;
    if FirstSentenceEnd(text) == |text| {
      OnePiece(text);
      OnePart(text);
    } else {
      var first, rest := SentencesFront(text);
      CutBehindEveryEnd(rest);
      ConcatCons(first, Sentences(rest));
    }
  }

  function NonBlank(pieces: seq<string>): (kept: seq<string>)
    ensures forall k :: 0 <= k < |kept| ==> !Blank(kept[k]) && kept[k] in pieces
  {
    if pieces == [] then []
    else NonBlank(pieces[..|pieces|-1]) + if Blank(pieces[|pieces|-1]) then [] else [pieces[|pieces|-1]]
  }

  /** The pieces that are not just space are kept, each once and in order; the others are not. */
  lemma {:induction false} NonBlankAreKept(pieces: seq<string>) returns (at: seq<nat>)
    ensures Picks(NonBlank(pieces), pieces, at)
    ensures forall i :: 0 <= i < |pieces| ==> (i in at <==> !AllSpace(pieces[i]))
  {
    hide Picks, Blank, AllSpace;
    if pieces == [] {
      at := [];
      NothingPicked<string>();
    } else {
      var init, last := pieces[..|pieces|-1], pieces[|pieces|-1];
      at := NonBlankAreKept(init);
      PickNext(NonBlank(init), init, at, last);
      BlankIsAllSpace(last);
      assert pieces == init + [last];
      if !Blank(last) {
        at := at + [|init|];
      } else {
        assert NonBlank(pieces) == NonBlank(init);
      }
    }
  }

  lemma {:induction false} ConcatAppend(a: seq<string>, b: seq<string>)
    ensures Concat(a + b) == Concat(a) + Concat(b)
  {
    if b == [] {
      assert a + b == a;
    } else {
      var init := b[..|b|-1];
      assert (a + b)[..|a+b|-1] == a + init;
      ConcatAppend(a, init);
    }
  }

  lemma ConcatCons(head: string, tail: seq<string>)
    ensures Concat([head] + tail) == head + Concat(tail)
  {
    ConcatAppend([head], tail);
    assert Concat([head]) == head;
  }

  /** Cost of putting pieces `lo..hi` into one part. */
  function GroupCost(pieces: seq<string>, count: string -> nat, lo: nat, hi: nat): nat {
    if lo <= hi <= |pieces| then count(Concat(pieces[lo..hi])) else 0
  }

  function JoinedCost(pieces: seq<string>, count: string -> nat): (nat, nat) -> nat {
    (lo, hi) => GroupCost(pieces, count, lo, hi)
  }

  /** `parts` are the groups of `pieces` between the cuts. */
  ghost predicate AreGroups(parts: seq<string>, pieces: seq<string>, cuts: seq<nat>) {
    && |cuts| == |parts| + 1
    && forall i :: 0 <= i < |parts| ==> IsGroup(parts[i], pieces, cuts[i], cuts[i+1])
  }

  ghost predicate IsGroup(part: string, pieces: seq<string>, lo: nat, hi: nat) {
    lo <= hi <= |pieces| && part == Concat(pieces[lo..hi])
  }

  lemma BlankIfEmpty(s: string)
    requires !Blank(s)
    ensures s != ""
  {
  }

  /** Pieces before `lo` are packed into `parts`; each part was closed by the piece after it. */
  ghost predicate PackedTo(pieces: seq<string>, max: int, count: string -> nat, parts: seq<string>, cuts: seq<nat>,
                           lo: nat) {
    var cost := JoinedCost(pieces, count);
    && IsCutting(lo, cuts) && AllGrown(cost, max, cuts)
    && (forall k :: 0 <= k < |cuts| - 1 ==> cost(cuts[k], cuts[k+1] + 1) > max)
    && AreGroups(parts, pieces, cuts)
  }

  /** Closing the part `lo..i`. */
  lemma ClosePart(pieces: seq<string>, max: int, count: string -> nat, parts: seq<string>, cuts: seq<nat>, lo: nat,
                  i: nat)
    requires lo < i <= |pieces| && PackedTo(pieces, max, count, parts, cuts, lo)
    requires Grown(JoinedCost(pieces, count), max, lo, i)
    ensures IsGreedy(i, JoinedCost(pieces, count), max, cuts + [i])
    ensures AreGroups(parts + [Concat(pieces[lo..i])], pieces, cuts + [i])
    ensures JoinedCost(pieces, count)(lo, i + 1) > max ==>
              PackedTo(pieces, max, count, parts + [Concat(pieces[lo..i])], cuts + [i], i)
  {
    hide Concat, Grown, IsGroup;
    OneMoreGroup(pieces, parts, cuts, lo, i);
    var cuts' := cuts + [i];
    forall k | 0 <= k < |cuts'| - 1 ensures Grown(JoinedCost(pieces, count), max, cuts'[k], cuts'[k+1]) {
      if k < |cuts| - 1 { assert Grown(JoinedCost(pieces, count), max, cuts[k], cuts[k+1]); }
    }
  }

  lemma OneMoreGroup(pieces: seq<string>, parts: seq<string>, cuts: seq<nat>, lo: nat, i: nat)
    requires lo <= i <= |pieces| && AreGroups(parts, pieces, cuts) && cuts[|cuts|-1] == lo
    ensures AreGroups(parts + [Concat(pieces[lo..i])], pieces, cuts + [i])
  {
    hide Concat, IsGroup;
    var parts', cuts' := parts + [Concat(pieces[lo..i])], cuts + [i];
    forall k | 0 <= k < |parts'| ensures IsGroup(parts'[k], pieces, cuts'[k], cuts'[k+1]) {
      if k < |parts| { assert IsGroup(parts[k], pieces, cuts[k], cuts[k+1]); } else { GroupIs(pieces, lo, i); }
    }
  }

  lemma GroupIs(pieces: seq<string>, lo: nat, hi: nat)
    requires lo <= hi <= |pieces|
    ensures IsGroup(Concat(pieces[lo..hi]), pieces, lo, hi)
  {
  }

  /** `parts` is the greedy grouping of the pieces under the budget. */
  ghost predicate AreGreedyParts(parts: seq<string>, pieces: seq<string>, max: int, count: string -> nat) {
    exists cuts :: IsGreedy(|pieces|, JoinedCost(pieces, count), max, cuts) && AreGroups(parts, pieces, cuts)
  }

  /** The sentence stage of `token_split`. */
  method PackSentences(pieces: seq<string>, max: int, count: string -> nat) returns (parts: seq<string>)
    requires forall k :: 0 <= k < |pieces| ==> !Blank(pieces[k])
    ensures AreGreedyParts(parts, pieces, max, count)
  {
    hide Blank, Strip, Concat, PackedTo, AreGroups, IsGreedy;
    parts := [];
    ghost var cuts: seq<nat> := [0];
    var current := "";
    ghost var lo := 0;
    NothingPacked(pieces, max, count);
    for i := 0 to |pieces|
      invariant 0 <= lo <= i && (lo == i ==> i == 0)
      invariant current == Concat(pieces[lo..i]) && (current == "" <==> i == 0)
      invariant i > 0 ==> Grown(JoinedCost(pieces, count), max, lo, i)
      invariant PackedTo(pieces, max, count, parts, cuts, lo)
    {
      var piece := pieces[i];
      BlankIfEmpty(piece);
      ConcatStep(pieces, lo, i);
      var candidate := current + piece;
      if current != "" && count(candidate) > max {
        ClosePart(pieces, max, count, parts, cuts, lo, i);
        parts := parts + [current];
        cuts := cuts + [i];
        lo := i;
        current := piece;
        ConcatStep(pieces, i, i);
      } else {
        current := candidate;
      }
    }
    if current != "" {
      ClosePart(pieces, max, count, parts, cuts, lo, |pieces|);
      parts := parts + [current];
      cuts := cuts + [|pieces|];
    } else {
      AllPacked(pieces, max, count, parts, cuts);
    }
  }

  lemma NothingPacked(pieces: seq<string>, max: int, count: string -> nat)
    ensures Concat(pieces[0..0]) == ""
    ensures PackedTo(pieces, max, count, [], [0], 0)
  {
  }

  lemma AllPacked(pieces: seq<string>, max: int, count: string -> nat, parts: seq<string>, cuts: seq<nat>)
    requires PackedTo(pieces, max, count, parts, cuts, |pieces|)
    ensures IsGreedy(|pieces|, JoinedCost(pieces, count), max, cuts) && AreGroups(parts, pieces, cuts)
  {
  }

  lemma ConcatStep(pieces: seq<string>, lo: nat, i: nat)
    requires lo <= i < |pieces|
    ensures Concat(pieces[lo..i+1]) == Concat(pieces[lo..i]) + pieces[i]
    ensures Concat(pieces[i..i]) == ""
    ensures lo == i ==> Concat(pieces[lo..i+1]) == pieces[i]
  {
    assert pieces[lo..i+1][..i-lo] == pieces[lo..i];
  }

  /** For a monotone counter no admissible grouping of the sentences has fewer parts. */
  lemma SentencePartsAreFewest(pieces: seq<string>, max: int, count: string -> nat, cuts: seq<nat>, other: seq<nat>)
    requires MonotoneCounter(count)
    requires IsGreedy(|pieces|, JoinedCost(pieces, count), max, cuts)
    requires IsCutting(|pieces|, other) && AllAdmissible(JoinedCost(pieces, count), max, other)
    ensures |cuts| <= |other|
  {
    var cost := JoinedCost(pieces, count);
    forall lo: nat, hi: nat, lo': nat, hi': nat | lo' <= lo < hi <= hi' <= |pieces|
      ensures cost(lo, hi) <= cost(lo', hi')
    {
      var a, s, b := pieces[lo'..lo], pieces[lo..hi], pieces[hi..hi'];
      assert pieces[lo'..hi] == a + s;
      assert pieces[lo'..hi'] == a + s + b;
      ConcatAppend(a + s, b);
      ConcatAppend(a, s);
      assert count(Concat(s)) <= count(Concat(a) + Concat(s) + Concat(b));
    }
    GreedyIsFewest(|pieces|, cost, max, cuts, other);
  }

  // ---- the line stage ----------------------------------------------------------

  /** Lines from the first non-empty one on. */
  function DropEmpty(lines: seq<string>): (kept: seq<string>)
    ensures kept != [] ==> kept[0] != ""
  {
    if lines != [] && lines[0] == "" then DropEmpty(lines[1..]) else lines
  }

  /** What the loop holds after lines `lo..i`: empty lines at the start of a part vanish. */
  function LineText(lines: seq<string>): string {
    Join(DropEmpty(lines), "\n")
  }

  lemma {:induction false} LineTextStep(lines: seq<string>, line: string)
    ensures LineText(lines + [line]) ==
            if LineText(lines) == "" then line else LineText(lines) + "\n" + line
    ensures DropEmpty(lines) == [] <==> LineText(lines) == ""
  {
    DropEmptySnoc(lines, line);
    var kept := DropEmpty(lines);
    if kept != [] {
      NonEmptyJoin(kept);
      assert (kept + [line])[..|kept|] == kept;
    }
  }

  lemma {:induction false} DropEmptySnoc(lines: seq<string>, line: string)
    ensures DropEmpty(lines + [line]) ==
            if DropEmpty(lines) != [] then DropEmpty(lines) + [line] else if line == "" then [] else [line]
  {
    var more := lines + [line];
    if lines == [] {
      assert more == [line] && more[1..] == [];
    } else if lines[0] == "" {
      DropEmptySnoc(lines[1..], line);
      assert more[1..] == lines[1..] + [line];
    }
  }

  lemma {:induction false} NonEmptyJoin(lines: seq<string>)
    requires lines != [] && lines[0] != ""
    ensures Join(lines, "\n") != ""
  {
    if |lines| > 1 {
      NonEmptyJoin(lines[..|lines|-1]);
    }
  }

  /** A part of the line stage fits, or is one line of the text. */
  ghost predicate FitsOrOneLine(part: string, lines: seq<string>, max: int, count: string -> nat) {
    count(part) <= max || part in lines
  }

  /** The characters of a text that are not line breaks. */
  function NoBreaks(s: string): string {
    if s == "" then ""
    else NoBreaks(s[..|s|-1]) + if IsBreak(s[|s|-1]) then "" else [s[|s|-1]]
  }

  lemma {:induction false} NoBreaksAppend(a: string, b: string)
    ensures NoBreaks(a + b) == NoBreaks(a) + NoBreaks(b)
  {
    if b == "" {
      assert a + b == a;
    } else {
      assert (a + b)[..|a+b|-1] == a + b[..|b|-1];
      NoBreaksAppend(a, b[..|b|-1]);
    }
  }

  ghost predicate OnlyBreaks(s: string) {
    forall k :: 0 <= k < |s| ==> IsBreak(s[k])
  }

  lemma {:induction false} LinesKeepText(s: string)
    ensures NoBreaks(Concat(SplitLines(s))) == NoBreaks(s)
    decreases |s|
  {
    if s != "" && FirstBreak(s) < |s| {
      hide SplitLines, Concat, NoBreaks, IsBreak, OnlyBreaks;
      var line, end, rest := FirstLine(s);
      LinesKeepText(rest);
      MiddleVanishes(line, end, rest);
      ConcatCons(line, SplitLines(rest));
      NoBreaksAppend(line, Concat(SplitLines(rest)));
    } else if s != "" {
      OnePart(s);
    }
  }

  /** The first line of a text, what ends it, and the rest. */
  lemma FirstLine(s: string) returns (line: string, end: string, rest: string)
    requires s != "" && FirstBreak(s) < |s|
    ensures s == line + end + rest && OnlyBreaks(end) && |rest| < |s|
    ensures SplitLines(s) == [line] + SplitLines(rest)
  {
    hide FirstBreak, SplitLines;
    line, end, rest := FirstLineOf(s);
  }

  lemma MiddleVanishes(a: string, b: string, c: string)
    requires OnlyBreaks(b)
    ensures NoBreaks(a + b + c) == NoBreaks(a) + NoBreaks(c)
  {
    hide NoBreaks, OnlyBreaks;
    NoBreaksAppend(a + b, c);
    NoBreaksAppend(a, b);
    AllBreaks(b);
    assert NoBreaks(a) + "" == NoBreaks(a);
  }

  lemma {:induction false} AllBreaks(s: string)
    requires OnlyBreaks(s)
    ensures NoBreaks(s) == ""
  {
    if s != "" { AllBreaks(s[..|s|-1]); }
  }

  /** The characters of a text that are not space. */
  function NoSpace(s: string): string {
    if s == "" then ""
    else NoSpace(s[..|s|-1]) + if IsSpace(s[|s|-1]) then "" else [s[|s|-1]]
  }

  lemma {:induction false} NoSpaceIs(s: string) returns (at: seq<nat>)
    ensures Picks(NoSpace(s), s, at)
    ensures forall i :: 0 <= i < |s| ==> (i in at <==> !IsSpace(s[i]))
  {
    hide Picks, IsSpace;
    if s == "" {
      at := [];
      NothingPicked<char>();
    } else {
      var init, last := s[..|s|-1], s[|s|-1];
      at := NoSpaceIs(init);
      PickNext(NoSpace(init), init, at, last);
      assert s == init + [last];
      if !IsSpace(last) {
        at := at + [|init|];
      } else {
        assert NoSpace(s) == NoSpace(init);
      }
    }
  }

  lemma {:induction false} NoSpaceAppend(a: string, b: string)
    ensures NoSpace(a + b) == NoSpace(a) + NoSpace(b)
  {
    if b == "" {
      assert a + b == a;
    } else {
      assert (a + b)[..|a+b|-1] == a + b[..|b|-1];
      NoSpaceAppend(a, b[..|b|-1]);
    }
  }

  /** Line breaks are space. */
  lemma {:induction false} BreaksAreSpace(s: string)
    ensures NoSpace(NoBreaks(s)) == NoSpace(s)
  {
    if s != "" {
      var init, last := s[..|s|-1], s[|s|-1];
      BreaksAreSpace(init);
      NoSpaceAppend(NoBreaks(init), if IsBreak(last) then "" else [last]);
      assert [last][..0] == "";
    }
  }

  lemma {:induction false} SpaceVanishes(s: string)
    requires AllSpace(s)
    ensures NoSpace(s) == ""
  {
    if s != "" {
      SpaceVanishes(s[..|s|-1]);
    }
  }

  /** Dropping blank pieces drops nothing but space. */
  lemma {:induction false} NonBlankKeepsText(pieces: seq<string>)
    ensures NoSpace(Concat(NonBlank(pieces))) == NoSpace(Concat(pieces))
  {
    hide Blank, NoSpace, AllSpace;
    if pieces != [] {
      var init, last := pieces[..|pieces|-1], pieces[|pieces|-1];
      NonBlankKeepsText(init);
      NoSpaceAppend(Concat(init), last);
      NoSpaceAppend(Concat(NonBlank(init)), last);
      BlankIsAllSpace(last);
      PartsStep(NonBlank(init), last);
      if Blank(last) {
        SpaceVanishes(last);
        assert NonBlank(pieces) == NonBlank(init);
      }
    }
  }

  /** The line loop before line `i`: closed parts, and the part that started at line `lo`. */
  ghost predicate LineState(lines: seq<string>, max: int, count: string -> nat, lo: nat, i: nat, parts: seq<string>,
                            current: string) {
    && lo <= i <= |lines|
    && current == LineText(lines[lo..i])
    && (current == "" || FitsOrOneLine(current, lines, max, count))
    && (forall k :: 0 <= k < |parts| ==> FitsOrOneLine(parts[k], lines, max, count))
    && NoBreaks(Concat(parts) + current) == NoBreaks(Concat(lines[..i]))
  }

  function ExtendBy(current: string, line: string): string {
    current + (if current != "" then "\n" else "") + line
  }

  // What the loop packs: the cuts are where one more line would not have fitted.

  /** The group `lo..hi` grew line by line: once it had text, it still fitted with every further line. */
  ghost predicate LineGrown(lines: seq<string>, max: int, count: string -> nat, lo: nat, hi: nat) {
    lo < hi <= |lines| &&
    forall k: nat :: lo < k <= hi && LineText(lines[lo..k-1]) != "" ==> count(LineText(lines[lo..k])) <= max
  }

  /** A group that line `hi` closed. */
  ghost predicate IsLineGroup(lines: seq<string>, max: int, count: string -> nat, part: string, lo: nat, hi: nat) {
    && LineGrown(lines, max, count, lo, hi) && hi < |lines|
    && part == LineText(lines[lo..hi]) && part != "" && count(LineText(lines[lo..hi+1])) > max
  }

  ghost predicate LinesPacked(lines: seq<string>, max: int, count: string -> nat, parts: seq<string>, cuts: seq<nat>,
                              lo: nat) {
    && IsCutting(lo, cuts) && |cuts| == |parts| + 1
    && forall i: nat :: i < |parts| ==> IsLineGroup(lines, max, count, parts[i], cuts[i], cuts[i+1])
  }

  function LastPart(text: string): seq<string> {
    if text == "" then [] else [text]
  }

  /** `parts` is the greedy packing of the lines; a last group of empty lines only is dropped. */
  ghost predicate AreLineParts(parts: seq<string>, lines: seq<string>, max: int, count: string -> nat) {
    exists closed: seq<string>, cuts: seq<nat>, lo: nat :: IsLinePacking(parts, lines, max, count, closed, cuts, lo)
  }

  ghost predicate IsLinePacking(parts: seq<string>, lines: seq<string>, max: int, count: string -> nat,
                                closed: seq<string>, cuts: seq<nat>, lo: nat) {
    && LinesPacked(lines, max, count, closed, cuts, lo) && LineGrown(lines, max, count, lo, |lines|)
    && parts == closed + LastPart(LineText(lines[lo..]))
  }

  lemma CandidateIs(lines: seq<string>, lo: nat, i: nat)
    requires lo <= i < |lines|
    ensures ExtendBy(LineText(lines[lo..i]), lines[i]) == LineText(lines[lo..i+1])
  {
    assert lines[lo..i+1] == lines[lo..i] + [lines[i]];
    LineTextStep(lines[lo..i], lines[i]);
    assert ExtendBy("", lines[i]) == lines[i];
  }

  lemma GrowGroup(lines: seq<string>, max: int, count: string -> nat, lo: nat, i: nat)
    requires lo <= i < |lines| && (lo == i || LineGrown(lines, max, count, lo, i))
    requires LineText(lines[lo..i]) == "" || count(LineText(lines[lo..i+1])) <= max
    ensures LineGrown(lines, max, count, lo, i + 1)
  {
    hide LineText;
  }

  lemma NewGroup(lines: seq<string>, max: int, count: string -> nat, i: nat)
    requires i < |lines|
    ensures LineGrown(lines, max, count, i, i + 1)
  {
    assert lines[i..i] == [];
  }

  lemma CloseGroup(lines: seq<string>, max: int, count: string -> nat, parts: seq<string>, cuts: seq<nat>, lo: nat,
                   i: nat)
    requires LinesPacked(lines, max, count, parts, cuts, lo) && lo < i
    requires i < |lines| && IsLineGroup(lines, max, count, LineText(lines[lo..i]), lo, i)
    ensures LinesPacked(lines, max, count, parts + [LineText(lines[lo..i])], cuts + [i], i)
  {
    hide IsLineGroup, LineText;
    var parts', cuts' := parts + [LineText(lines[lo..i])], cuts + [i];
    forall k: nat | k < |parts'| ensures IsLineGroup(lines, max, count, parts'[k], cuts'[k], cuts'[k+1]) {
      if k < |parts| { assert IsLineGroup(lines, max, count, parts[k], cuts[k], cuts[k+1]); }
    }
  }

  lemma ExtendPart(lines: seq<string>, max: int, count: string -> nat, lo: nat, i: nat, parts: seq<string>,
                   current: string)
    requires i < |lines| && LineState(lines, max, count, lo, i, parts, current)
    requires current == "" || count(ExtendBy(current, lines[i])) <= max
    ensures LineState(lines, max, count, lo, i + 1, parts, ExtendBy(current, lines[i]))
  {
    hide Concat, NoBreaks, LineText;
    assert lines[lo..i+1] == lines[lo..i] + [lines[i]];
    LineTextStep(lines[lo..i], lines[i]);
    TextStep(lines, i, parts, current);
    assert current == "" ==> ExtendBy(current, lines[i]) == lines[i];
  }

  lemma CutPart(lines: seq<string>, max: int, count: string -> nat, lo: nat, i: nat, parts: seq<string>,
                current: string)
    requires i < |lines| && LineState(lines, max, count, lo, i, parts, current) && current != ""
    ensures LineState(lines, max, count, i, i + 1, parts + [current], lines[i])
  {
    hide Concat, NoBreaks, LineText;
    assert lines[i..i+1] == [] + [lines[i]];
    LineTextStep([], lines[i]);
    NothingInLines();
    TextStep(lines, i, parts, current);
  }

  lemma NothingInLines()
    ensures LineText([]) == ""
  {
  }

  /** `_split_by_lines` */
  method SplitByLines(text: string, max: int, count: string -> nat) returns (parts: seq<string>)
    ensures |SplitLines(text)| <= 1 ==> parts == [text]
    ensures |SplitLines(text)| > 1 ==> AreLineParts(parts, SplitLines(text), max, count)
    ensures |SplitLines(text)| > 1 ==> forall k :: 0 <= k < |parts| ==>
        FitsOrOneLine(parts[k], SplitLines(text), max, count)
    ensures NoBreaks(Concat(parts)) == NoBreaks(text)
  {
    hide FitsOrOneLine, SplitLines, Concat, NoBreaks, LineText, LineState, LineGrown, LinesPacked, ExtendBy;
    var lines := SplitLines(text);
    LinesKeepText(text);
    if |lines| <= 1 {
      OnePart(text);
      return [text];
    }
    parts := [];
    var current := "";
    ghost var lo, cuts: seq<nat> := 0, [0];
    StartLines(lines, max, count);
    for i := 0 to |lines|
      invariant LineState(lines, max, count, lo, i, parts, current)
      invariant LinesPacked(lines, max, count, parts, cuts, lo) && lo <= i
      invariant if i == 0 then lo == 0 else LineGrown(lines, max, count, lo, i)
    {
      var line := lines[i];
      var candidate := ExtendBy(current, line);
      StateText(lines, max, count, lo, i, parts, current);
      CandidateIs(lines, lo, i);
      if current != "" && count(candidate) > max {
        CutPart(lines, max, count, lo, i, parts, current);
        CloseGroup(lines, max, count, parts, cuts, lo, i);
        NewGroup(lines, max, count, i);
        parts := parts + [current];
        current := line;
        cuts := cuts + [i];
        lo := i;
      } else {
        ExtendPart(lines, max, count, lo, i, parts, current);
        GrowGroup(lines, max, count, lo, i);
        current := candidate;
      }
    }
    EndLines(lines, max, count, lo, parts, current);
    StateText(lines, max, count, lo, |lines|, parts, current);
    assert IsLinePacking(parts + LastPart(current), lines, max, count, parts, cuts, lo) by {
      assert lines[lo..] == lines[lo..|lines|];
    }
    if current != "" {
      parts := parts + [current];
    }
  }

  lemma StateText(lines: seq<string>, max: int, count: string -> nat, lo: nat, i: nat, parts: seq<string>,
                  current: string)
    requires LineState(lines, max, count, lo, i, parts, current)
    ensures lo <= i <= |lines| && current == LineText(lines[lo..i])
    ensures lo == i ==> current == ""
  {
    if lo == i {
      assert lines[lo..i] == [];
    }
  }

  lemma StartLines(lines: seq<string>, max: int, count: string -> nat)
    ensures LineState(lines, max, count, 0, 0, [], "")
    ensures LinesPacked(lines, max, count, [], [0], 0)
  {
    assert lines[0..0] == [] && lines[..0] == [];
  }

  lemma EndLines(lines: seq<string>, max: int, count: string -> nat, lo: nat, parts: seq<string>, current: string)
    requires LineState(lines, max, count, lo, |lines|, parts, current)
    ensures var all := if current != "" then parts + [current] else parts;
            NoBreaks(Concat(all)) == NoBreaks(Concat(lines)) &&
            forall k :: 0 <= k < |all| ==> FitsOrOneLine(all[k], lines, max, count)
  {
    hide Concat, NoBreaks, LineText, FitsOrOneLine;
    assert lines[..|lines|] == lines;
    PartsStep(parts, current);
    assert current == "" ==> Concat(parts) + current == Concat(parts);
  }

  lemma OnePart(text: string)
    ensures Concat([text]) == text
  {
  }

  lemma PartsStep(parts: seq<string>, part: string)
    ensures Concat(parts + [part]) == Concat(parts) + part
  {
    assert (parts + [part])[..|parts|] == parts;
  }

  /** Moving line `i` behind `current`, with or without a newline, or closing the part first, loses no text. */
  lemma TextStep(lines: seq<string>, i: nat, parts: seq<string>, current: string)
    requires i < |lines| && NoBreaks(Concat(parts) + current) == NoBreaks(Concat(lines[..i]))
    ensures NoBreaks(Concat(parts) + (current + "\n" + lines[i])) == NoBreaks(Concat(lines[..i+1]))
    ensures NoBreaks(Concat(parts) + (current + "" + lines[i])) == NoBreaks(Concat(lines[..i+1]))
    ensures NoBreaks(Concat(parts + [current]) + lines[i]) == NoBreaks(Concat(lines[..i+1]))
  {
    hide NoBreaks;
    var line, before := lines[i], Concat(parts) + current;
    assert lines[..i+1][..i] == lines[..i];
    assert Concat(lines[..i+1]) == Concat(lines[..i]) + line;
    NoBreaksAppend(Concat(lines[..i]), line);
    NoBreaksAppend(before, line);
    assert Concat(parts) + (current + "" + line) == before + line;
    PartsStep(parts, current);
    assert Concat(parts) + (current + "\n" + line) == before + "\n" + line;
    NoBreaksAppend(before + "\n", line);
    NoBreaksAppend(before, "\n");
    NewlineVanishes();
    assert NoBreaks(before) + "" == NoBreaks(before);
  }

  lemma NewlineVanishes()
    ensures NoBreaks("\n") == ""
  {
  }

  // ---- the whole splitter ---------------------------------------------------------

  /** `part` fits, or is (one line of) a single sentence of the text. */
  ghost predicate FitsOrOneSentence(part: string, pieces: seq<string>, max: int, count: string -> nat) {
    count(part) <= max || exists k :: 0 <= k < |pieces| && IsSentenceLine(part, pieces[k])
  }

  ghost predicate IsSentenceLine(part: string, sentence: string) {
    (part == sentence && |SplitLines(sentence)| <= 1) || part in SplitLines(sentence)
  }

  lemma OverBudgetIsOneSentence(pieces: seq<string>, max: int, count: string -> nat, parts: seq<string>, cuts: seq<nat>,
                                i: nat)
    returns (k: nat)
    requires IsGreedy(|pieces|, JoinedCost(pieces, count), max, cuts) && AreGroups(parts, pieces, cuts)
    requires i < |parts| && count(parts[i]) > max
    ensures k < |pieces| && parts[i] == pieces[k]
  {
    k := cuts[i];
    assert Grown(JoinedCost(pieces, count), max, cuts[i], cuts[i+1]);
    assert IsGroup(parts[i], pieces, cuts[i], cuts[i+1]);
    assert JoinedCost(pieces, count)(cuts[i], cuts[i+1]) == count(parts[i]);
    ConcatStep(pieces, k, k);
  }

  /** The parts of the sentence stage are the pieces in order, nothing lost. */
  lemma {:induction false} GroupsConcat(parts: seq<string>, pieces: seq<string>, cuts: seq<nat>)
    requires AreGroups(parts, pieces, cuts) && cuts != [] && cuts[0] == 0
    ensures cuts[|cuts|-1] <= |pieces| && Concat(parts) == Concat(pieces[..cuts[|cuts|-1]])
  {
    hide Concat, AreGroups;
    if parts != [] {
      GroupsInit(parts, pieces, cuts);
      var p, c := parts[..|parts|-1], cuts[..|cuts|-1];
      GroupsConcat(p, pieces, c);
      var s, e := cuts[|cuts|-2], cuts[|cuts|-1];
      assert pieces[..e] == pieces[..s] + pieces[s..e];
      ConcatAppend(pieces[..s], pieces[s..e]);
      assert parts == p + [parts[|parts|-1]];
      PartsStep(p, parts[|parts|-1]);
    } else {
      assert pieces[..0] == [];
      GroupCount(parts, pieces, cuts);
    }
  }

  lemma GroupCount(parts: seq<string>, pieces: seq<string>, cuts: seq<nat>)
    requires AreGroups(parts, pieces, cuts)
    ensures |cuts| == |parts| + 1
  {
  }

  lemma GroupsInit(parts: seq<string>, pieces: seq<string>, cuts: seq<nat>)
    requires AreGroups(parts, pieces, cuts) && parts != []
    ensures |cuts| == |parts| + 1 && AreGroups(parts[..|parts|-1], pieces, cuts[..|cuts|-1])
    ensures IsGroup(parts[|parts|-1], pieces, cuts[|cuts|-2], cuts[|cuts|-1])
  {
    hide IsGroup;
    var p, c := parts[..|parts|-1], cuts[..|cuts|-1];
    forall i | 0 <= i < |p| ensures IsGroup(p[i], pieces, c[i], c[i+1]) {
      assert IsGroup(parts[i], pieces, cuts[i], cuts[i+1]);
    }
    assert IsGroup(parts[|p|], pieces, cuts[|p|], cuts[|p|+1]);
  }

  /** `token_split` */
  method Split(text: string, max: int, count: string -> nat) returns (result: seq<string>)
    ensures count(text) <= max ==> result == [text]
    ensures count(text) > max ==>
              && NoSpace(Concat(result)) == NoSpace(text)
              && NoBreaks(Concat(result)) == NoBreaks(Concat(NonBlank(Sentences(text))))
              && (forall k :: 0 <= k < |result| ==> FitsOrOneSentence(result[k], NonBlank(Sentences(text)), max, count))
              && IsSplitOf(result, NonBlank(Sentences(text)), max, count)
  {
    hide Concat, NoBreaks, NoSpace, SplitLines, Blank, NonBlank, Sentences, IsSentenceLine, Refined;
    if count(text) <= max {
      return [text];
    }
    var pieces := NonBlank(Sentences(text));
    var parts := PackSentences(pieces, max, count);
    ghost var cuts :| IsGreedy(|pieces|, JoinedCost(pieces, count), max, cuts) && AreGroups(parts, pieces, cuts);
    GroupsConcat(parts, pieces, cuts);
    assert pieces[..|pieces|] == pieces;
    result := [];
    ConcatNothing(parts);
    NothingRefined(parts, max, count);
    for i := 0 to |parts|
      invariant Refined(result, parts[..i], max, count)
      invariant NoBreaks(Concat(result)) == NoBreaks(Concat(parts[..i]))
      invariant forall k :: 0 <= k < |result| ==> FitsOrOneSentence(result[k], pieces, max, count)
    {
      var part := parts[i];
      assert parts[..i+1] == parts[..i] + [part];
      if count(part) <= max {
        ResultStep(result, parts[..i], [part], part);
        RefinedStep(result, parts[..i], [part], part, max, count);
        result := result + [part];
      } else {
        ghost var k := OverBudgetIsOneSentence(pieces, max, count, parts, cuts, i);
        var lineParts := SplitByLines(part, max, count);
        SentenceHasText(part);
        LinePartsAreSentenceLines(pieces, k, lineParts, max, count);
        var extension := if lineParts != [] then lineParts else [part];
        ResultStep(result, parts[..i], extension, part);
        LineSplitIs(extension, part, max, count);
        RefinedStep(result, parts[..i], extension, part, max, count);
        result := result + extension;
      }
    }
    assert parts[..|parts|] == parts;
    SplitKeepsText(text, result);
  }

  lemma SplitKeepsText(text: string, result: seq<string>)
    requires NoBreaks(Concat(result)) == NoBreaks(Concat(NonBlank(Sentences(text))))
    ensures NoSpace(Concat(result)) == NoSpace(text)
  {
    hide NoSpace, NoBreaks, Concat, NonBlank, Sentences;
    BreaksAreSpace(Concat(result));
    BreaksAreSpace(Concat(NonBlank(Sentences(text))));
    NonBlankKeepsText(Sentences(text));
    CutBehindEveryEnd(text);
  }

  /** An over-budget part: its lines packed greedily. No text is lost, and each result fits or is one line. */
  ghost predicate IsLineSplit(lines: seq<string>, part: string, max: int, count: string -> nat) {
    && (if |SplitLines(part)| <= 1 then lines == [part] else AreLineParts(lines, SplitLines(part), max, count))
    && NoBreaks(Concat(lines)) == NoBreaks(part)
    && forall k :: 0 <= k < |lines| ==> count(lines[k]) <= max || IsSentenceLine(lines[k], part)
  }

  /** Each part that fits stays as it is; each other part is replaced, in place, by a split of it into lines. */
  ghost predicate Refined(result: seq<string>, parts: seq<string>, max: int, count: string -> nat)
    decreases |parts|
  {
    if parts == [] then result == []
    else exists k :: 0 <= k <= |result| && Refined(result[..k], parts[..|parts|-1], max, count) &&
                     ReplacedBy(parts[|parts|-1], result[k..], max, count)
  }

  ghost predicate ReplacedBy(part: string, lines: seq<string>, max: int, count: string -> nat) {
    if count(part) <= max then lines == [part] else IsLineSplit(lines, part, max, count)
  }

  /** What `token_split` makes of over-budget text: the greedy parts, over-budget ones refined. */
  ghost predicate IsSplitOf(result: seq<string>, pieces: seq<string>, max: int, count: string -> nat) {
    exists parts :: AreGreedyParts(parts, pieces, max, count) && Refined(result, parts, max, count)
  }

  lemma NothingRefined(parts: seq<string>, max: int, count: string -> nat)
    ensures Refined([], parts[..0], max, count)
  {
  }

  lemma RefinedStep(result: seq<string>, parts: seq<string>, extension: seq<string>, part: string, max: int,
                    count: string -> nat)
    requires Refined(result, parts, max, count) && ReplacedBy(part, extension, max, count)
    ensures Refined(result + extension, parts + [part], max, count)
  {
    hide ReplacedBy;
    var more, all := result + extension, parts + [part];
    assert more[..|result|] == result && more[|result|..] == extension && all[..|parts|] == parts;
  }

  lemma LineSplitIs(lines: seq<string>, part: string, max: int, count: string -> nat)
    requires NoBreaks(Concat(lines)) == NoBreaks(part)
    requires |SplitLines(part)| <= 1 ==> lines == [part]
    requires |SplitLines(part)| > 1 ==> AreLineParts(lines, SplitLines(part), max, count)
    requires |SplitLines(part)| > 1 ==> forall k :: 0 <= k < |lines| ==>
        FitsOrOneLine(lines[k], SplitLines(part), max, count)
    ensures IsLineSplit(lines, part, max, count)
  {
    hide SplitLines, Concat, NoBreaks;
    forall k | 0 <= k < |lines| ensures count(lines[k]) <= max || IsSentenceLine(lines[k], part) {
    }
  }

  /** If every sentence fits, the result is the greedy grouping; for a monotone counter no shorter one exists. */
  lemma FewestIfSentencesFit(result: seq<string>, pieces: seq<string>, max: int, count: string -> nat, other: seq<nat>)
    requires IsSplitOf(result, pieces, max, count) && MonotoneCounter(count)
    requires forall k :: 0 <= k < |pieces| ==> count(pieces[k]) <= max
    requires IsCutting(|pieces|, other) && AllAdmissible(JoinedCost(pieces, count), max, other)
    ensures AreGreedyParts(result, pieces, max, count) && |result| <= |other| - 1
  {
    hide Refined, MonotoneCounter, IsCutting, AllAdmissible;
    var parts :| AreGreedyParts(parts, pieces, max, count) && Refined(result, parts, max, count);
    var cuts :| IsGreedy(|pieces|, JoinedCost(pieces, count), max, cuts) && AreGroups(parts, pieces, cuts);
    forall i | 0 <= i < |parts| ensures count(parts[i]) <= max {
      if count(parts[i]) > max {
        var k := OverBudgetIsOneSentence(pieces, max, count, parts, cuts, i);
      }
    }
    NothingToRefine(result, parts, max, count);
    SentencePartsAreFewest(pieces, max, count, cuts, other);
  }

  lemma LastRefined(result: seq<string>, parts: seq<string>, max: int, count: string -> nat) returns (k: nat)
    requires Refined(result, parts, max, count) && parts != []
    ensures k <= |result| && Refined(result[..k], parts[..|parts|-1], max, count)
    ensures count(parts[|parts|-1]) <= max ==> result[k..] == [parts[|parts|-1]]
  {
    hide IsLineSplit;
    k :| 0 <= k <= |result| && Refined(result[..k], parts[..|parts|-1], max, count) &&
         ReplacedBy(parts[|parts|-1], result[k..], max, count);
  }

  lemma NothingFromNothing(result: seq<string>, max: int, count: string -> nat)
    requires Refined(result, [], max, count)
    ensures result == []
  {
  }

  lemma {:induction false} NothingToRefine(result: seq<string>, parts: seq<string>, max: int, count: string -> nat)
    requires Refined(result, parts, max, count) && forall i :: 0 <= i < |parts| ==> count(parts[i]) <= max
    ensures result == parts
    decreases |parts|
  {
    hide Refined;
    if parts == [] {
      NothingFromNothing(result, max, count);
    } else {
      var k := LastRefined(result, parts, max, count);
      NothingToRefine(result[..k], parts[..|parts|-1], max, count);
      assert result == result[..k] + result[k..];
    }
  }

  /** A sentence is not made of line breaks only, so the line stage never comes back empty. */
  lemma SentenceHasText(sentence: string)
    requires !Blank(sentence)
    ensures NoBreaks(sentence) != NoBreaks(Concat([]))
  {
    BlankIsAllSpace(sentence);
    var k :| 0 <= k < |sentence| && !IsSpace(sentence[k]);
    HasOther(sentence, k);
  }

  lemma {:induction false} HasOther(s: string, k: nat)
    requires k < |s| && !IsBreak(s[k])
    ensures NoBreaks(s) != ""
  {
    if k < |s| - 1 { HasOther(s[..|s|-1], k); }
  }

  lemma ConcatNothing(parts: seq<string>)
    ensures NoBreaks(Concat([])) == NoBreaks(Concat(parts[..0]))
  {
  }

  lemma ResultStep(result: seq<string>, before: seq<string>, extension: seq<string>, part: string)
    requires NoBreaks(Concat(result)) == NoBreaks(Concat(before))
    requires NoBreaks(Concat(extension)) == NoBreaks(part) || extension == [part]
    ensures NoBreaks(Concat(result + extension)) == NoBreaks(Concat(before + [part]))
  {
    OnePart(part);
    ConcatAppend(result, extension);
    ConcatAppend(before, [part]);
    NoBreaksAppend(Concat(result), Concat(extension));
    NoBreaksAppend(Concat(before), part);
  }

  lemma LinePartsAreSentenceLines(pieces: seq<string>, k: nat, lineParts: seq<string>, max: int, count: string -> nat)
    requires k < |pieces|
    requires |SplitLines(pieces[k])| <= 1 ==> lineParts == [pieces[k]]
    requires |SplitLines(pieces[k])| > 1 ==>
               forall j :: 0 <= j < |lineParts| ==> FitsOrOneLine(lineParts[j], SplitLines(pieces[k]), max, count)
    ensures forall j :: 0 <= j < |lineParts| ==> FitsOrOneSentence(lineParts[j], pieces, max, count)
    ensures |SplitLines(pieces[k])| <= 1 ==> FitsOrOneSentence(pieces[k], pieces, max, count)
  {
    hide SplitLines;
    forall j | 0 <= j < |lineParts| ensures FitsOrOneSentence(lineParts[j], pieces, max, count) {
      if count(lineParts[j]) > max { assert IsSentenceLine(lineParts[j], pieces[k]); }
    }
    if |SplitLines(pieces[k])| <= 1 { assert IsSentenceLine(pieces[k], pieces[k]); }
  }
}
