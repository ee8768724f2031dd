/**
 The semantic chunker: app/ingestion/chunkers/semantic.py. The token counter, the
 splitter for over-long units and the table normaliser are parameters.
 */
module SemanticChunker {
  import opened Common
  import opened Ast

  datatype ChunkType = TEXT | LIST_TEXT | CODE | TABLE_ROWS

  datatype Chunk = Chunk(
    text: string,
    kind: ChunkType,
    headingPath: seq<string>,
    lineStart: int,
    lineEnd: int,
    tokenCount: nat,
    rawContent: Option<string>)

  datatype Tools = Tools(
    count: string -> nat,
    split: (string, int) -> seq<string>,
    normalizeTable: string -> string)

  /** Where the chunks of some consecutive blocks come from. */
  datatype Unit =
    | Run(lo: nat, hi: nat)               // text blocks lo..hi packed into one chunk
    | Whole(at: nat)                      // a code block or table kept whole
    | Pieces(at: nat, parts: seq<string>) // one over-long text block, split

  predicate IsText(b: Block) {
    b.kind != HEADING && b.kind != CODE_BLOCK && b.kind != TABLE
  }

  function Contents(blocks: seq<Block>): (contents: seq<string>)
    ensures |contents| == |blocks|
  {
    seq(|blocks|, k requires 0 <= k < |blocks| => blocks[k].content)
  }

  function Packed(blocks: seq<Block>): string {
    Join(Contents(blocks), "\n\n")
  }

  ghost predicate InRange(blocks: seq<Block>, u: Unit) {
    match u
    case Run(lo, hi) => lo < hi <= |blocks|
    case Whole(i) => i < |blocks|
    case Pieces(i, _) => i < |blocks|
  }

  /** The next block is of another kind, has another path, or would not fit. */
  ghost predicate ClosedAt(t: Tools, max: int, blocks: seq<Block>, lo: nat, hi: nat)
    requires lo < hi <= |blocks|
  {
    hi == |blocks| || !IsText(blocks[hi]) || blocks[hi].headingPath != blocks[lo].headingPath ||
    t.count(Packed(blocks[lo..hi+1])) > max
  }

  ghost predicate IsUnit(t: Tools, max: int, blocks: seq<Block>, u: Unit) {
    InRange(blocks, u) &&
    match u
    case Run(lo, hi) =>
      && (forall k :: lo <= k < hi ==> IsText(blocks[k]) && blocks[k].headingPath == blocks[lo].headingPath)
      && (forall k :: lo < k <= hi ==> t.count(Packed(blocks[lo..k])) <= max)
      && ClosedAt(t, max, blocks, lo, hi)
    case Whole(i) => blocks[i].kind == CODE_BLOCK || blocks[i].kind == TABLE
    case Pieces(i, parts) =>
      IsText(blocks[i]) && t.count(blocks[i].content) > max && parts == t.split(blocks[i].content, max)
  }

  function TextChunk(t: Tools, parts: seq<string>, path: seq<string>, lineStart: int, lineEnd: int): Chunk {
    var text := Join(parts, "\n\n");
    Chunk(text, TEXT, path, lineStart, lineEnd, t.count(text), None)
  }

  function PieceChunks(t: Tools, b: Block, parts: seq<string>): seq<Chunk> {
    seq(|parts|, k requires 0 <= k < |parts| =>
      Chunk(parts[k], if b.kind == LIST then LIST_TEXT else TEXT, b.headingPath, b.lineStart, b.lineEnd,
            t.count(parts[k]), None))
  }

  function WholeChunk(t: Tools, b: Block): Chunk {
    if b.kind == TABLE
    then Chunk(t.normalizeTable(b.content), TABLE_ROWS, b.headingPath, b.lineStart, b.lineEnd, t.count(b.content),
               Some(b.content))
    else Chunk(b.content, CODE, b.headingPath, b.lineStart, b.lineEnd, t.count(b.content), None)
  }

  /** The chunks of one unit: an accumulated chunk spans exactly its blocks' lines. */
  ghost function ChunksOfUnit(t: Tools, blocks: seq<Block>, u: Unit): seq<Chunk>
    requires InRange(blocks, u)
  {
    match u
    case Run(lo, hi) =>
      [TextChunk(t, Contents(blocks[lo..hi]), blocks[lo].headingPath, blocks[lo].lineStart, blocks[hi-1].lineEnd)]
    case Whole(i) => [WholeChunk(t, blocks[i])]
    case Pieces(i, parts) => PieceChunks(t, blocks[i], parts)
  }

  ghost function ChunksOf(t: Tools, blocks: seq<Block>, units: seq<Unit>): seq<Chunk>
    requires forall i :: 0 <= i < |units| ==> InRange(blocks, units[i])
  {
    if units == [] then []
    else ChunksOf(t, blocks, units[..|units|-1]) + ChunksOfUnit(t, blocks, units[|units|-1])
  }

  function Range(lo: nat, hi: nat): (r: seq<nat>)
    requires lo <= hi
  {
    seq(hi - lo, k requires 0 <= k < hi - lo => lo + k)
  }

  ghost function Positions(u: Unit): seq<nat> {
    match u
    case Run(lo, hi) => if lo <= hi then Range(lo, hi) else []
    case Whole(i) => [i]
    case Pieces(i, _) => [i]
  }

  ghost function AllPositions(units: seq<Unit>): seq<nat> {
    if units == [] then [] else AllPositions(units[..|units|-1]) + Positions(units[|units|-1])
  }

  ghost function NonHeadings(blocks: seq<Block>, upTo: nat): seq<nat>
    requires upTo <= |blocks|
  {
    if upTo == 0 then []
    else NonHeadings(blocks, upTo - 1) + if blocks[upTo-1].kind == HEADING then [] else [upTo - 1]
  }

  ghost predicate AreUnits(t: Tools, max: int, blocks: seq<Block>, units: seq<Unit>) {
    forall i :: 0 <= i < |units| ==> IsUnit(t, max, blocks, units[i])
  }

  /** The units cover each non-heading block before `upTo` once, in document order. */
  ghost predicate IsPlan(t: Tools, max: int, blocks: seq<Block>, units: seq<Unit>, upTo: nat) {
    upTo <= |blocks| && AreUnits(t, max, blocks, units) && AllPositions(units) == NonHeadings(blocks, upTo)
  }

  ghost predicate IsChunking(t: Tools, max: int, blocks: seq<Block>, units: seq<Unit>, upTo: nat, chunks: seq<Chunk>) {
    IsPlan(t, max, blocks, units, upTo) && chunks == ChunksOf(t, blocks, units)
  }

  /** The chunks follow a plan for the blocks before `upTo`. */
  ghost predicate ChunkedTo(t: Tools, max: int, blocks: seq<Block>, upTo: nat, chunks: seq<Chunk>) {
    exists plan :: IsChunking(t, max, blocks, plan, upTo, chunks)
  }

  /** The chunks follow a plan that covers the whole document. */
  ghost predicate AreChunksOf(t: Tools, max: int, blocks: seq<Block>, chunks: seq<Chunk>) {
    ChunkedTo(t, max, blocks, |blocks|, chunks)
  }

  lemma {:induction false} NonHeadingRun(blocks: seq<Block>, lo: nat, hi: nat)
    requires lo <= hi <= |blocks| && forall k :: lo <= k < hi ==> blocks[k].kind != HEADING
    ensures NonHeadings(blocks, hi) == NonHeadings(blocks, lo) + Range(lo, hi)
  {
    if lo < hi {
      NonHeadingRun(blocks, lo, hi - 1);
      assert Range(lo, hi) == Range(lo, hi - 1) + [hi - 1];
    }
  }

  lemma AddUnit(t: Tools, max: int, blocks: seq<Block>, units: seq<Unit>, upTo: nat, chunks: seq<Chunk>, u: Unit,
                next: nat)
    requires IsChunking(t, max, blocks, units, upTo, chunks) && IsUnit(t, max, blocks, u)
    requires next <= |blocks| && NonHeadings(blocks, next) == NonHeadings(blocks, upTo) + Positions(u)
    ensures IsChunking(t, max, blocks, units + [u], next, chunks + ChunksOfUnit(t, blocks, u))
  {
    hide IsUnit, ChunksOfUnit, Positions;
    var more := units + [u];
    assert more[..|units|] == units;
    forall i | 0 <= i < |more| ensures IsUnit(t, max, blocks, more[i]) {
      if i < |units| { assert IsUnit(t, max, blocks, units[i]); }
    }
    UnitsInRange(t, max, blocks, more);
  }

  lemma UnitsInRange(t: Tools, max: int, blocks: seq<Block>, units: seq<Unit>)
    requires AreUnits(t, max, blocks, units)
    ensures forall i :: 0 <= i < |units| ==> InRange(blocks, units[i])
  {
    hide InRange, ClosedAt, Packed;
  }

  // ---- emitting accumulated text blocks ------------------------------------------

  /** The loop's local variables while blocks `lo..at` wait to be emitted. */
  ghost predicate Accumulated(t: Tools, max: int, blocks: seq<Block>, lo: nat, at: nat,
                              parts: seq<string>, path: seq<string>, lineStart: int, lineEnd: int) {
    lo <= at <= |blocks| && parts == Contents(blocks[lo..at]) &&
    (lo < at ==>
       && (forall k :: lo <= k < at ==> IsText(blocks[k]) && blocks[k].headingPath == blocks[lo].headingPath)
       && path == blocks[lo].headingPath && lineStart == blocks[lo].lineStart && lineEnd == blocks[at-1].lineEnd
       && (forall k :: lo < k <= at ==> t.count(Packed(blocks[lo..k])) <= max))
  }

  lemma FlushRun(t: Tools, max: int, blocks: seq<Block>, units: seq<Unit>, chunks: seq<Chunk>, lo: nat, at: nat,
                 parts: seq<string>, path: seq<string>, lineStart: int, lineEnd: int)
    requires IsChunking(t, max, blocks, units, lo, chunks)
    requires Accumulated(t, max, blocks, lo, at, parts, path, lineStart, lineEnd) && lo < at
    requires ClosedAt(t, max, blocks, lo, at)
    ensures IsChunking(t, max, blocks, units + [Run(lo, at)], at,
                       chunks + [TextChunk(t, parts, path, lineStart, lineEnd)])
  {
    hide IsChunking, ClosedAt, Packed;
    NonHeadingRun(blocks, lo, at);
    PlanBounds(t, max, blocks, units, lo, chunks);
    AddUnit(t, max, blocks, units, lo, chunks, Run(lo, at), at);
  }

  lemma PlanBounds(t: Tools, max: int, blocks: seq<Block>, units: seq<Unit>, upTo: nat, chunks: seq<Chunk>)
    requires IsChunking(t, max, blocks, units, upTo, chunks)
    ensures upTo <= |blocks|
  {
  }

  /** A text block over the budget by itself becomes its split pieces. */
  lemma EmitPieces(t: Tools, max: int, blocks: seq<Block>, units: seq<Unit>, chunks: seq<Chunk>, at: nat)
    requires IsChunking(t, max, blocks, units, at, chunks)
    requires at < |blocks| && IsText(blocks[at]) && t.count(blocks[at].content) > max
    ensures var parts := t.split(blocks[at].content, max);
            IsChunking(t, max, blocks, units + [Pieces(at, parts)], at + 1, chunks + PieceChunks(t, blocks[at], parts))
  {
    hide IsChunking;
    AddUnit(t, max, blocks, units, at, chunks, Pieces(at, t.split(blocks[at].content, max)), at + 1);
  }

  lemma ContentsSnoc(blocks: seq<Block>, lo: nat, at: nat)
    requires lo <= at < |blocks|
    ensures Contents(blocks[lo..at+1]) == Contents(blocks[lo..at]) + [blocks[at].content]
    ensures lo == at ==> Packed(blocks[lo..at+1]) == blocks[at].content
  {
  }

  lemma Accumulate(t: Tools, max: int, blocks: seq<Block>, lo: nat, at: nat,
                   parts: seq<string>, path: seq<string>, lineStart: int, lineEnd: int)
    requires Accumulated(t, max, blocks, lo, at, parts, path, lineStart, lineEnd)
    requires at < |blocks| && IsText(blocks[at])
    requires lo < at ==> blocks[at].headingPath == path && t.count(Packed(blocks[lo..at+1])) <= max
    requires lo == at ==> t.count(blocks[at].content) <= max
    requires lo == at ==> path == blocks[at].headingPath && lineStart == blocks[at].lineStart
    ensures Accumulated(t, max, blocks, lo, at + 1, parts + [blocks[at].content], path, lineStart, blocks[at].lineEnd)
  {
    hide Packed, Contents;
    ContentsSnoc(blocks, lo, at);
  }

  /** `_emit_text_units`: `pending` is the blocks from position `from` on, all of them text. */
  method EmitTextUnits(t: Tools, max: int, pending: seq<Block>, out: seq<Chunk>, ghost blocks: seq<Block>,
                       ghost from: nat)
    returns (chunks: seq<Chunk>)
    requires pending != [] && from + |pending| <= |blocks| && pending == blocks[from..from+|pending|]
    requires forall k :: 0 <= k < |pending| ==> IsText(pending[k])
    requires from + |pending| == |blocks| || !IsText(blocks[from+|pending|])
    requires ChunkedTo(t, max, blocks, from, out)
    ensures ChunkedTo(t, max, blocks, from + |pending|, chunks)
  {
    hide IsChunking, Accumulated, Packed, Contents, IsText, Join;
    chunks := out;
    ghost var plan :| IsChunking(t, max, blocks, plan, from, out);
    var parts: seq<string>, path: seq<string> := [], [];
    var lineStart, lineEnd := pending[0].lineStart, pending[0].lineEnd;
    ghost var lo := from;
    NothingAccumulated(t, max, blocks, from, path, lineStart, lineEnd);
    for k := 0 to |pending|
      invariant from <= lo <= from + k && (parts == [] <==> lo == from + k)
      invariant Accumulated(t, max, blocks, lo, from + k, parts, path, lineStart, lineEnd)
      invariant IsChunking(t, max, blocks, plan, lo, chunks)
    {
      var b := pending[k];
      ghost var at := from + k;
      assert b == blocks[at];
      ReadAccumulated(t, max, blocks, lo, at, parts, path, lineStart, lineEnd);
      ContentsSnoc(blocks, lo, at);
      PackedIs(blocks, lo, at, parts);
      if parts != [] && b.headingPath != path {
        FlushRun(t, max, blocks, plan, chunks, lo, at, parts, path, lineStart, lineEnd);
        chunks := chunks + [TextChunk(t, parts, path, lineStart, lineEnd)];
        plan := plan + [Run(lo, at)];
        parts := [];
        lo := at;
      }
      var candidate := if parts != [] then Join(parts + [b.content], "\n\n") else b.content;
      if parts != [] && t.count(candidate) > max {
        FlushRun(t, max, blocks, plan, chunks, lo, at, parts, path, lineStart, lineEnd);
        chunks := chunks + [TextChunk(t, parts, path, lineStart, lineEnd)];
        plan := plan + [Run(lo, at)];
        parts := [];
        lo := at;
      }
      if parts == [] {
        path := b.headingPath;
        lineStart := b.lineStart;
        NothingAccumulated(t, max, blocks, at, path, lineStart, lineEnd);
      }
      if t.count(b.content) > max && parts == [] {
        EmitPieces(t, max, blocks, plan, chunks, at);
        var pieces := t.split(b.content, max);
        chunks := chunks + PieceChunks(t, b, pieces);
        plan := plan + [Pieces(at, pieces)];
        path := [];
        lo := at + 1;
        NothingAccumulated(t, max, blocks, at + 1, path, lineStart, lineEnd);
      } else {
        Accumulate(t, max, blocks, lo, at, parts, path, lineStart, lineEnd);
        parts := parts + [b.content];
        lineEnd := b.lineEnd;
      }
    }
    if parts != [] {
      FlushRun(t, max, blocks, plan, chunks, lo, from + |pending|, parts, path, lineStart, lineEnd);
      chunks := chunks + [TextChunk(t, parts, path, lineStart, lineEnd)];
      plan := plan + [Run(lo, from + |pending|)];
    }
  }

  lemma NothingAccumulated(t: Tools, max: int, blocks: seq<Block>, at: nat, path: seq<string>, lineStart: int,
                           lineEnd: int)
    requires at <= |blocks|
    ensures Accumulated(t, max, blocks, at, at, [], path, lineStart, lineEnd)
  {
  }

  lemma ReadAccumulated(t: Tools, max: int, blocks: seq<Block>, lo: nat, at: nat,
                        parts: seq<string>, path: seq<string>, lineStart: int, lineEnd: int)
    requires Accumulated(t, max, blocks, lo, at, parts, path, lineStart, lineEnd)
    ensures lo <= at <= |blocks| && parts == Contents(blocks[lo..at])
    ensures lo < at ==> path == blocks[lo].headingPath
  {
  }

  lemma PackedIs(blocks: seq<Block>, lo: nat, at: nat, parts: seq<string>)
    requires lo <= at < |blocks| && parts == Contents(blocks[lo..at])
    ensures Packed(blocks[lo..at+1]) == Join(parts + [blocks[at].content], "\n\n")
  {
    ContentsSnoc(blocks, lo, at);
  }

  // ---- the chunker -----------------------------------------------------------------

  /** `_chunk_flat` */
  method ChunkFlat(t: Tools, max: int, blocks: seq<Block>) returns (chunks: seq<Chunk>)
    ensures AreChunksOf(t, max, blocks, chunks)
    ensures forall i :: 0 <= i < |chunks| ==> HasOrigin(t, max, blocks, chunks[i])
    ensures forall k: nat :: k < |blocks| && blocks[k].kind != HEADING ==> Arrives(t, max, blocks, k, chunks)
  {
    hide ChunkedTo, HasOrigin, Arrives;
    chunks := [];
    var pending: seq<Block> := [];
    NoUnits(t, max, blocks);
    for i := 0 to |blocks|
      invariant |pending| <= i && pending == blocks[i-|pending|..i]
      invariant forall k :: 0 <= k < |pending| ==> IsText(pending[k])
      invariant ChunkedTo(t, max, blocks, i - |pending|, chunks)
    {
      var b := blocks[i];
      if !IsText(b) {
        if pending != [] {
          chunks := EmitTextUnits(t, max, pending, chunks, blocks, i - |pending|);
          pending := [];
        }
        if b.kind == HEADING {
          SkipHeading(t, max, blocks, i, chunks);
        } else {
          AddWhole(t, max, blocks, i, chunks);
          chunks := chunks + [WholeChunk(t, b)];
        }
      } else {
        pending := pending + [b];
      }
    }
    if pending != [] {
      chunks := EmitTextUnits(t, max, pending, chunks, blocks, |blocks| - |pending|);
    }
    ChunksAreTheDocument(t, max, blocks, chunks);
  }

  lemma NoUnits(t: Tools, max: int, blocks: seq<Block>)
    ensures ChunkedTo(t, max, blocks, 0, [])
  {
    assert IsChunking(t, max, blocks, [], 0, []);
  }

  lemma SkipHeading(t: Tools, max: int, blocks: seq<Block>, i: nat, chunks: seq<Chunk>)
    requires i < |blocks| && blocks[i].kind == HEADING && ChunkedTo(t, max, blocks, i, chunks)
    ensures ChunkedTo(t, max, blocks, i + 1, chunks)
  {
    hide AreUnits, ChunksOf;
    var plan :| IsChunking(t, max, blocks, plan, i, chunks);
    assert IsChunking(t, max, blocks, plan, i + 1, chunks);
  }

  lemma AddWhole(t: Tools, max: int, blocks: seq<Block>, i: nat, chunks: seq<Chunk>)
    requires i < |blocks| && (blocks[i].kind == CODE_BLOCK || blocks[i].kind == TABLE) &&
        ChunkedTo(t, max, blocks, i, chunks)
    ensures ChunkedTo(t, max, blocks, i + 1, chunks + [WholeChunk(t, blocks[i])])
  {
    hide IsChunking;
    var plan :| IsChunking(t, max, blocks, plan, i, chunks);
    AddUnit(t, max, blocks, plan, i, chunks, Whole(i), i + 1);
  }

  // ---- the plan is determined ------------------------------------------------------------

  /** The first position of a unit, and the one after its last. */
  function First(u: Unit): nat {
    match u case Run(lo, _) => lo case Whole(i) => i case Pieces(i, _) => i
  }

  /** Two units that start at the same block are the same. */
  lemma SameStartSameUnit(t: Tools, max: int, blocks: seq<Block>, u: Unit, v: Unit)
    requires IsUnit(t, max, blocks, u) && IsUnit(t, max, blocks, v) && First(u) == First(v)
    ensures u == v
  {
    var p := First(u);
    assert Packed(blocks[p..p+1]) == blocks[p].content by { ContentsSnoc(blocks, p, p); }
    if u.Run? && v.Run? {
      RunNotLonger(t, max, blocks, p, u.hi, v.hi);
      RunNotLonger(t, max, blocks, p, v.hi, u.hi);
    }
  }

  lemma RunNotLonger(t: Tools, max: int, blocks: seq<Block>, lo: nat, hi: nat, hi': nat)
    requires IsUnit(t, max, blocks, Run(lo, hi)) && IsUnit(t, max, blocks, Run(lo, hi'))
    ensures hi' <= hi
  {
    assert ClosedAt(t, max, blocks, lo, hi);
  }

  lemma {:induction false} PositionsOfPrefix(units: seq<Unit>, k: nat)
    requires k <= |units|
    ensures AllPositions(units[..k]) <= AllPositions(units)
    ensures k < |units| && Positions(units[k]) != [] ==>
              |AllPositions(units[..k])| < |AllPositions(units)| &&
              AllPositions(units)[|AllPositions(units[..k])|] == Positions(units[k])[0]
  {
    if k == |units| {
      assert units[..k] == units;
    } else if k == |units| - 1 {
      assert units[|units|-1] == units[k];
    } else {
      var init := units[..|units|-1];
      PositionsOfPrefix(init, k);
      assert init[..k] == units[..k];
    }
  }

  lemma PlanPositions(t: Tools, max: int, blocks: seq<Block>, units: seq<Unit>, k: nat)
    requires AreUnits(t, max, blocks, units) && k < |units|
    ensures |AllPositions(units[..k])| < |AllPositions(units)|
    ensures AllPositions(units)[|AllPositions(units[..k])|] == First(units[k])
  {
    assert IsUnit(t, max, blocks, units[k]);
    PositionsOfPrefix(units, k);
  }

  /** The properties of a plan leave no choice: two plans for the same blocks are equal, and so are their chunks. */
  lemma {:induction false} PlanIsUnique(t: Tools, max: int, blocks: seq<Block>, us: seq<Unit>, vs: seq<Unit>, k: nat)
    requires IsPlan(t, max, blocks, us, |blocks|) && IsPlan(t, max, blocks, vs, |blocks|)
    requires k <= |us| && k <= |vs| && us[..k] == vs[..k]
    ensures us == vs
    decreases |us| - k
  {
    hide IsUnit, NonHeadings, AllPositions, First;
    if k < |us| { PlanPositions(t, max, blocks, us, k); }
    if k < |vs| { PlanPositions(t, max, blocks, vs, k); }
    assert us[..|us|] == us && vs[..|vs|] == vs;
    if k < |us| && k < |vs| {
      assert IsUnit(t, max, blocks, us[k]) && IsUnit(t, max, blocks, vs[k]);
      SameStartSameUnit(t, max, blocks, us[k], vs[k]);
      assert us[..k+1] == us[..k] + [us[k]] && vs[..k+1] == vs[..k] + [vs[k]];
      PlanIsUnique(t, max, blocks, us, vs, k + 1);
    }
  }

  /** A document has one chunking. */
  lemma ChunkingIsUnique(t: Tools, max: int, blocks: seq<Block>, a: seq<Chunk>, b: seq<Chunk>)
    requires AreChunksOf(t, max, blocks, a) && AreChunksOf(t, max, blocks, b)
    ensures a == b
  {
    hide IsPlan, ChunksOf;
    var us :| IsChunking(t, max, blocks, us, |blocks|, a);
    var vs :| IsChunking(t, max, blocks, vs, |blocks|, b);
    PlanIsUnique(t, max, blocks, us, vs, 0);
  }

  // ---- parents -----------------------------------------------------------------------

  /** `p` is of the child's kind and its lines contain the child's. */
  predicate Holds(p: Chunk, child: Chunk) {
    p.kind == child.kind && p.lineStart <= child.lineStart && child.lineEnd <= p.lineEnd
  }

  function Span(c: Chunk): int {
    c.lineEnd - c.lineStart
  }

  /** `best` is the first of the smallest parents that hold the child, if any does. */
  ghost predicate IsContainer(child: Chunk, parents: seq<Chunk>, best: Option<nat>) {
    match best
    case None => forall k :: 0 <= k < |parents| ==> !Holds(parents[k], child)
    case Some(i) =>
      && i < |parents| && Holds(parents[i], child)
      && (forall k :: 0 <= k < i && Holds(parents[k], child) ==> Span(parents[i]) < Span(parents[k]))
      && (forall k :: i < k < |parents| && Holds(parents[k], child) ==> Span(parents[i]) <= Span(parents[k]))
  }

  /** `_find_container` */
  method FindContainer(child: Chunk, parents: seq<Chunk>) returns (best: Option<nat>)
    ensures IsContainer(child, parents, best)
  {
    best := None;
    for i := 0 to |parents|
      invariant IsContainer(child, parents[..i], best)
    {
      if Holds(parents[i], child) && (best.None? || Span(parents[i]) < Span(parents[best.value])) {
        best := Some(i);
      }
    }
    assert parents[..|parents|] == parents;
  }

  datatype ParentChunkNode = ParentChunkNode(parent: Option<Chunk>, child: Chunk)

  /** `chunk_with_parents`: the same blocks chunked under two budgets, children tied to parents by line range. */
  method ChunkWithParents(t: Tools, childMax: int, parentMax: int, blocks: seq<Block>)
    returns (nodes: seq<ParentChunkNode>)
    ensures exists children, parents ::
      && AreChunksOf(t, childMax, blocks, children) && AreChunksOf(t, parentMax, blocks, parents)
      && AreNodes(nodes, children, parents)
  {
    var kids := ChunkFlat(t, childMax, blocks);
    var elders := ChunkFlat(t, parentMax, blocks);
    hide AreChunksOf, HasOrigin, Arrives;
    nodes := [];
    for i := 0 to |kids|
      invariant |nodes| == i
      invariant forall k :: 0 <= k < i ==> nodes[k].child == kids[k] && IsNode(nodes[k], elders)
    {
      var node;
      if kids[i].kind == CODE || kids[i].kind == TABLE_ROWS {
        node := ParentChunkNode(None, kids[i]);
      } else {
        var best := FindContainer(kids[i], elders);
        node := ParentChunkNode(if best.Some? then Some(elders[best.value]) else None, kids[i]);
        assert IsContainer(node.child, elders, best);
      }
      nodes := nodes + [node];
    }
    assert AreNodes(nodes, kids, elders);
  }

  /** Every child once, in order, with the parent it should have. */
  ghost predicate AreNodes(nodes: seq<ParentChunkNode>, children: seq<Chunk>, parents: seq<Chunk>) {
    |nodes| == |children| && forall k :: 0 <= k < |nodes| ==> nodes[k].child == children[k] && IsNode(nodes[k], parents)
  }

  /** Code and tables have no parent; any other child has the container `_find_container` picks. */
  ghost predicate IsNode(node: ParentChunkNode, parents: seq<Chunk>) {
    if node.child.kind == CODE || node.child.kind == TABLE_ROWS then node.parent == None
    else exists best: Option<nat> :: IsContainer(node.child, parents, best) && best.Some? == node.parent.Some? &&
                        (best.Some? ==> best.value < |parents| && node.parent == Some(parents[best.value]))
  }

  // ---- what a chunk is ---------------------------------------------------------------

  /** The chunk is text blocks `lo..hi`, all with one path, joined by blank lines, and fits unless it is one block. */
  ghost predicate IsRunChunk(t: Tools, max: int, blocks: seq<Block>, lo: nat, hi: nat, c: Chunk) {
    && lo < hi <= |blocks|
    && (forall k :: lo <= k < hi ==>
          blocks[k].kind !in [HEADING, CODE_BLOCK, TABLE] && blocks[k].headingPath == c.headingPath)
    && c.kind == TEXT && c.rawContent == None
    && c.text == Join(seq(hi - lo, k requires 0 <= k < hi - lo => blocks[lo+k].content), "\n\n")
    && c.lineStart == blocks[lo].lineStart && c.lineEnd == blocks[hi-1].lineEnd
    && c.tokenCount == t.count(c.text) <= max
  }

  /** The chunk is code block or table `k`, whole; a table is normalised, with its source beside it. */
  ghost predicate IsWholeChunk(t: Tools, blocks: seq<Block>, k: nat, c: Chunk) {
    && k < |blocks|
    && var b := blocks[k];
       && (b.kind == CODE_BLOCK || b.kind == TABLE)
       && c.kind == (if b.kind == TABLE then TABLE_ROWS else CODE)
       && c.text == (if b.kind == TABLE then t.normalizeTable(b.content) else b.content)
       && c.rawContent == (if b.kind == TABLE then Some(b.content) else None)
       && c.headingPath == b.headingPath && c.lineStart == b.lineStart && c.lineEnd == b.lineEnd
       && c.tokenCount == t.count(b.content)
  }

  /** The chunk is piece `p` of text block `k`, which is over the budget. */
  ghost predicate IsPieceChunk(t: Tools, max: int, blocks: seq<Block>, k: nat, p: nat, c: Chunk) {
    && k < |blocks| && blocks[k].kind !in [HEADING, CODE_BLOCK, TABLE] && t.count(blocks[k].content) > max
    && p < |t.split(blocks[k].content, max)| && c.text == t.split(blocks[k].content, max)[p]
    && c.kind == (if blocks[k].kind == LIST then LIST_TEXT else TEXT) && c.rawContent == None
    && c.headingPath == blocks[k].headingPath
    && c.lineStart == blocks[k].lineStart && c.lineEnd == blocks[k].lineEnd && c.tokenCount == t.count(c.text)
  }

  /** The chunk comes from the document. */
  ghost predicate HasOrigin(t: Tools, max: int, blocks: seq<Block>, c: Chunk) {
    || (exists lo: nat, hi: nat :: IsRunChunk(t, max, blocks, lo, hi, c))
    || (exists k: nat :: IsWholeChunk(t, blocks, k, c))
    || (exists k: nat, p: nat :: IsPieceChunk(t, max, blocks, k, p, c))
  }

  /** Block `k` is in the chunk, whole. */
  ghost predicate IsIn(t: Tools, max: int, blocks: seq<Block>, k: nat, c: Chunk) {
    IsWholeChunk(t, blocks, k, c) ||
    exists lo: nat, hi: nat :: lo <= k < hi && IsRunChunk(t, max, blocks, lo, hi, c)
  }

  /** Block `k` is in one of the chunks, or each of its pieces is one. */
  ghost predicate Arrives(t: Tools, max: int, blocks: seq<Block>, k: nat, chunks: seq<Chunk>)
    requires k < |blocks|
  {
    (exists c :: c in chunks && IsIn(t, max, blocks, k, c)) ||
    (t.count(blocks[k].content) > max &&
     forall p: nat :: p < |t.split(blocks[k].content, max)| ==> PieceArrives(t, max, blocks, k, p, chunks))
  }

  ghost predicate PieceArrives(t: Tools, max: int, blocks: seq<Block>, k: nat, p: nat, chunks: seq<Chunk>) {
    exists c :: c in chunks && IsPieceChunk(t, max, blocks, k, p, c)
  }

  lemma UnitChunkFits(t: Tools, max: int, blocks: seq<Block>, u: Unit, m: nat)
    requires IsUnit(t, max, blocks, u) && m < |ChunksOfUnit(t, blocks, u)|
    ensures var c := ChunksOfUnit(t, blocks, u)[m];
      match u
      case Run(lo, hi) => IsRunChunk(t, max, blocks, lo, hi, c)
      case Whole(k) => IsWholeChunk(t, blocks, k, c)
      case Pieces(k, _) => IsPieceChunk(t, max, blocks, k, m, c)
  {
    hide Join, ClosedAt;
    if u.Run? {
      assert Contents(blocks[u.lo..u.hi]) ==
        seq(u.hi - u.lo, k requires 0 <= k < u.hi - u.lo => blocks[u.lo+k].content);
    }
  }

  /** In a chunking every chunk comes from the document. */
  lemma EveryChunkHasOrigin(t: Tools, max: int, blocks: seq<Block>, units: seq<Unit>, i: nat)
    requires AreUnits(t, max, blocks, units) && (forall j :: 0 <= j < |units| ==> InRange(blocks, units[j]))
    requires i < |ChunksOf(t, blocks, units)|
    ensures HasOrigin(t, max, blocks, ChunksOf(t, blocks, units)[i])
  {
    hide IsUnit, InRange, ChunksOf, ChunksOfUnit, IsRunChunk, IsWholeChunk, IsPieceChunk;
    var j, m := UnitOfChunk(t, blocks, units, i);
    assert IsUnit(t, max, blocks, units[j]);
    UnitChunkFits(t, max, blocks, units[j], m);
  }

  lemma {:induction false} UnitAt(units: seq<Unit>, x: nat) returns (j: nat)
    requires x in AllPositions(units)
    ensures j < |units| && x in Positions(units[j])
  {
    var init := units[..|units|-1];
    if x in AllPositions(init) {
      j := UnitAt(init, x);
    } else {
      j := |units| - 1;
    }
  }

  lemma {:induction false} NonHeadingsAre(blocks: seq<Block>, upTo: nat)
    requires upTo <= |blocks|
    ensures forall x :: x in NonHeadings(blocks, upTo) <==> 0 <= x < upTo && blocks[x].kind != HEADING
  {
    if upTo > 0 {
      NonHeadingsAre(blocks, upTo - 1);
    }
  }

  lemma {:induction false} ChunksOfUnitAreIn(t: Tools, blocks: seq<Block>, units: seq<Unit>, j: nat, m: nat)
    requires forall i :: 0 <= i < |units| ==> InRange(blocks, units[i])
    requires j < |units| && m < |ChunksOfUnit(t, blocks, units[j])|
    ensures ChunksOfUnit(t, blocks, units[j])[m] in ChunksOf(t, blocks, units)
  {
    hide ChunksOfUnit;
    var init := units[..|units|-1];
    if j < |init| {
      ChunksOfUnitAreIn(t, blocks, init, j, m);
    }
  }

  /** In a chunking of the document every block but the headings arrives. */
  lemma EveryBlockArrives(t: Tools, max: int, blocks: seq<Block>, units: seq<Unit>, k: nat)
    requires IsPlan(t, max, blocks, units, |blocks|) && k < |blocks| && blocks[k].kind != HEADING
    requires forall j :: 0 <= j < |units| ==> InRange(blocks, units[j])
    ensures Arrives(t, max, blocks, k, ChunksOf(t, blocks, units))
  {
    hide IsUnit, InRange, ChunksOf, ChunksOfUnit, NonHeadings, AllPositions, IsRunChunk, IsWholeChunk, IsPieceChunk;
    NonHeadingsAre(blocks, |blocks|);
    var j := UnitAt(units, k);
    var u := units[j];
    assert IsUnit(t, max, blocks, u);
    UnitHasChunks(t, max, blocks, u);
    forall m: nat | m < |ChunksOfUnit(t, blocks, u)|
      ensures ChunksOfUnit(t, blocks, u)[m] in ChunksOf(t, blocks, units)
    {
      ChunksOfUnitAreIn(t, blocks, units, j, m);
    }
    if u.Pieces? {
      forall p: nat | p < |t.split(blocks[k].content, max)|
        ensures PieceArrives(t, max, blocks, k, p, ChunksOf(t, blocks, units))
      {
        UnitChunkFits(t, max, blocks, u, p);
      }
    } else {
      UnitChunkFits(t, max, blocks, u, 0);
      assert IsIn(t, max, blocks, k, ChunksOfUnit(t, blocks, u)[0]);
    }
  }

  lemma UnitHasChunks(t: Tools, max: int, blocks: seq<Block>, u: Unit)
    requires IsUnit(t, max, blocks, u)
    ensures u.Pieces? ==> t.count(blocks[u.at].content) > max
    ensures |ChunksOfUnit(t, blocks, u)| == if u.Pieces? then |t.split(blocks[u.at].content, max)| else 1
    ensures forall x :: x in Positions(u) ==> First(u) <= x <= Last(u)
  {
  }

  /** Every chunk comes from the document, and all of the document but the headings is in the chunks. */
  lemma ChunksAreTheDocument(t: Tools, max: int, blocks: seq<Block>, chunks: seq<Chunk>)
    requires AreChunksOf(t, max, blocks, chunks)
    ensures forall i :: 0 <= i < |chunks| ==> HasOrigin(t, max, blocks, chunks[i])
    ensures forall k: nat :: k < |blocks| && blocks[k].kind != HEADING ==> Arrives(t, max, blocks, k, chunks)
  {
    hide HasOrigin, Arrives, AreUnits, ChunksOf, InRange;
    var plan :| IsChunking(t, max, blocks, plan, |blocks|, chunks);
    UnitsInRange(t, max, blocks, plan);
    forall i | 0 <= i < |chunks| ensures HasOrigin(t, max, blocks, chunks[i]) {
      EveryChunkHasOrigin(t, max, blocks, plan, i);
    }
    forall k: nat | k < |blocks| && blocks[k].kind != HEADING ensures Arrives(t, max, blocks, k, chunks) {
      EveryBlockArrives(t, max, blocks, plan, k);
    }
  }

  // ---- which parent a child gets -----------------------------------------------------------

  /** The last position of a unit. */
  function Last(u: Unit): int {
    match u case Run(_, hi) => hi - 1 case Whole(i) => i case Pieces(i, _) => i
  }

  function KindOfUnit(blocks: seq<Block>, u: Unit): ChunkType
    requires InRange(blocks, u)
  {
    match u
    case Run(_, _) => TEXT
    case Whole(i) => if blocks[i].kind == TABLE then TABLE_ROWS else CODE
    case Pieces(i, _) => if blocks[i].kind == LIST then LIST_TEXT else TEXT
  }

  lemma UnitChunkIs(t: Tools, blocks: seq<Block>, u: Unit, m: nat)
    requires InRange(blocks, u) && m < |ChunksOfUnit(t, blocks, u)|
    ensures var c := ChunksOfUnit(t, blocks, u)[m];
      && c.kind == KindOfUnit(blocks, u) && 0 <= First(u) <= Last(u) < |blocks|
      && c.lineStart == blocks[First(u)].lineStart && c.lineEnd == blocks[Last(u)].lineEnd
  {
  }

  /** A coarse unit of the child's kind that has chunks, and every block of the child's unit. */
  ghost predicate HasRoomFor(t: Tools, blocks: seq<Block>, v: Unit, u: Unit)
    requires InRange(blocks, u) && InRange(blocks, v)
  {
    && KindOfUnit(blocks, v) == KindOfUnit(blocks, u) && ChunksOfUnit(t, blocks, v) != []
    && First(v) <= First(u) && Last(u) <= Last(v)
  }

  /** Lines tell positions: a chunk holds a child exactly if its unit has room for the child's. */
  lemma HoldsIffRoom(t: Tools, blocks: seq<Block>, v: Unit, n: nat, u: Unit, m: nat)
    requires LinesIncrease(blocks) && InRange(blocks, u) && InRange(blocks, v)
    requires n < |ChunksOfUnit(t, blocks, v)| && m < |ChunksOfUnit(t, blocks, u)|
    ensures Holds(ChunksOfUnit(t, blocks, v)[n], ChunksOfUnit(t, blocks, u)[m]) <==> HasRoomFor(t, blocks, v, u)
  {
    hide InRange, ChunksOfUnit, KindOfUnit, First, Last;
    UnitChunkIs(t, blocks, v, n);
    UnitChunkIs(t, blocks, u, m);
    var a, b, c, d := First(v), First(u), Last(u), Last(v);
    assert a < b ==> blocks[a].lineEnd < blocks[b].lineStart;
    assert b < a ==> blocks[b].lineEnd < blocks[a].lineStart;
    assert c < d ==> blocks[c].lineEnd < blocks[d].lineStart;
    assert d < c ==> blocks[d].lineEnd < blocks[c].lineStart;
  }

  /** The unit chunk `k` comes from, and its place in it. */
  lemma {:induction false} UnitOfChunk(t: Tools, blocks: seq<Block>, units: seq<Unit>, k: nat) returns (j: nat, m: nat)
    requires forall i :: 0 <= i < |units| ==> InRange(blocks, units[i])
    requires k < |ChunksOf(t, blocks, units)|
    ensures j < |units| && m < |ChunksOfUnit(t, blocks, units[j])| && m <= k
    ensures ChunksOf(t, blocks, units)[k] == ChunksOfUnit(t, blocks, units[j])[m]
    ensures ChunksOf(t, blocks, units)[k-m] == ChunksOfUnit(t, blocks, units[j])[0]
  {
    hide ChunksOfUnit;
    var init := units[..|units|-1];
    var before := ChunksOf(t, blocks, init);
    if k < |before| {
      j, m := UnitOfChunk(t, blocks, init, k);
    } else {
      j, m := |units| - 1, k - |before|;
    }
  }

  lemma {:induction false} ChunkOfUnit(t: Tools, blocks: seq<Block>, units: seq<Unit>, j: nat) returns (k: nat)
    requires forall i :: 0 <= i < |units| ==> InRange(blocks, units[i])
    requires j < |units| && ChunksOfUnit(t, blocks, units[j]) != []
    ensures k < |ChunksOf(t, blocks, units)|
    ensures ChunksOf(t, blocks, units)[k] == ChunksOfUnit(t, blocks, units[j])[0]
  {
    hide ChunksOfUnit;
    var init := units[..|units|-1];
    if j < |init| {
      k := ChunkOfUnit(t, blocks, init, j);
    } else {
      k := |ChunksOf(t, blocks, init)|;
    }
  }

  /** `parent` is the first chunk of unit `v`, which has every block of `u`. */
  ghost predicate IsFirstOf(t: Tools, blocks: seq<Block>, v: Unit, u: Unit, parent: Chunk)
    requires InRange(blocks, u) && InRange(blocks, v)
  {
    HasRoomFor(t, blocks, v, u) && parent == ChunksOfUnit(t, blocks, v)[0]
  }

  /**
   A child has a parent if and only if one coarse unit of its kind has all its blocks; a child
   that straddles a coarse cut has none, and a list child needs a coarse unit that splits the
   list. The parent is that unit's first chunk, so its blocks include the child's.
   */
  lemma ParentIffCoarseUnit(t: Tools, blocks: seq<Block>, u: Unit, m: nat, coarse: seq<Unit>, best: Option<nat>)
    requires LinesIncrease(blocks) && InRange(blocks, u) && m < |ChunksOfUnit(t, blocks, u)|
    requires forall i :: 0 <= i < |coarse| ==> InRange(blocks, coarse[i])
    requires IsContainer(ChunksOfUnit(t, blocks, u)[m], ChunksOf(t, blocks, coarse), best)
    ensures best.Some? <==> exists j :: 0 <= j < |coarse| && HasRoomFor(t, blocks, coarse[j], u)
    ensures best.Some? ==>
      exists j :: 0 <= j < |coarse| && IsFirstOf(t, blocks, coarse[j], u, ChunksOf(t, blocks, coarse)[best.value])
  {
    hide ChunksOf, ChunksOfUnit, InRange, HasRoomFor, Holds, Span;
    var child, parents := ChunksOfUnit(t, blocks, u)[m], ChunksOf(t, blocks, coarse);
    forall j: nat | j < |coarse| && HasRoomFor(t, blocks, coarse[j], u) ensures best.Some? {
      RoomHasChunks(t, blocks, coarse[j], u);
      var k := ChunkOfUnit(t, blocks, coarse, j);
      HoldsIffRoom(t, blocks, coarse[j], 0, u, m);
      assert Holds(parents[k], child);
    }
    if best.Some? {
      var j, n := UnitOfChunk(t, blocks, coarse, best.value);
      HoldsIffRoom(t, blocks, coarse[j], n, u, m);
      HoldsIffRoom(t, blocks, coarse[j], 0, u, m);
      SameSpan(t, blocks, coarse[j], n);
      assert n == 0;
      assert IsFirstOf(t, blocks, coarse[j], u, parents[best.value]);
    }
  }

  lemma RoomHasChunks(t: Tools, blocks: seq<Block>, v: Unit, u: Unit)
    requires InRange(blocks, u) && InRange(blocks, v) && HasRoomFor(t, blocks, v, u)
    ensures ChunksOfUnit(t, blocks, v) != []
  {
  }

  lemma SameSpan(t: Tools, blocks: seq<Block>, v: Unit, n: nat)
    requires InRange(blocks, v) && n < |ChunksOfUnit(t, blocks, v)|
    ensures Span(ChunksOfUnit(t, blocks, v)[n]) == Span(ChunksOfUnit(t, blocks, v)[0])
  {
    UnitChunkIs(t, blocks, v, n);
    UnitChunkIs(t, blocks, v, 0);
  }

  /**
   What the parent's text has of the child: all of its blocks if the coarse unit is a run; if
   the coarse unit is a split block, the first piece only, whichever piece the child is.
   */
  lemma ParentText(t: Tools, blocks: seq<Block>, v: Unit, u: Unit, parent: Chunk)
    requires InRange(blocks, u) && InRange(blocks, v) && IsFirstOf(t, blocks, v, u, parent)
    ensures v.Run? ==> v.lo <= First(u) && Last(u) < v.hi && parent.text == Packed(blocks[v.lo..v.hi])
    ensures v.Pieces? ==> First(u) == Last(u) == v.at && parent.text == v.parts[0]
  {
    assert First(u) <= Last(u);
  }

  /** One paragraph over both budgets, split into its characters under each. */
  lemma SecondPieceGetsFirstParent(best: Option<nat>)
    requires IsContainer(ChunksOfUnit(PerCharacter(), TwoLetters(), Pieces(0, ["a", "b"]))[1],
                         ChunksOf(PerCharacter(), TwoLetters(), [Pieces(0, ["a", "b"])]), best)
    ensures IsUnit(PerCharacter(), 1, TwoLetters(), Pieces(0, ["a", "b"]))
    ensures ChunksOfUnit(PerCharacter(), TwoLetters(), Pieces(0, ["a", "b"]))[1].text == "b"
    ensures best.Some? && ChunksOf(PerCharacter(), TwoLetters(), [Pieces(0, ["a", "b"])])[best.value].text == "a"
  {
    var u := Pieces(0, ["a", "b"]);
    assert PerCharacter().split("ab", 1) == ["a", "b"];
    ParentIffCoarseUnit(PerCharacter(), TwoLetters(), u, 1, [u], best);
    assert HasRoomFor(PerCharacter(), TwoLetters(), [u][0], u);
  }

  function PerCharacter(): Tools {
    Tools(text => |text|, (text, _) => seq(|text|, i requires 0 <= i < |text| => [text[i]]), text => text)
  }

  function TwoLetters(): (blocks: seq<Block>)
    ensures |blocks| == 1
  {
    [Block(PARAGRAPH, "ab", 1, 1, None, [], [])]
  }
}
