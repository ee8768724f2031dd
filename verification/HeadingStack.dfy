/**
 The heading outline as a relation on levels. A heading is open at the end of a
 list of levels when every later heading is strictly deeper. The parser and the
 section builder both keep the open headings on a stack; this module says what
 that stack has to hold, by a direct scan, and that popping computes it.
 */
module HeadingStack {

  /** Heading `k` still encloses what follows the last heading of `levels`. */
  ghost predicate IsOpen(levels: seq<nat>, k: nat)
    requires k < |levels|
  {
    forall m :: k < m < |levels| ==> levels[k] < levels[m]
  }

  /** `stack` lists exactly the open headings, outermost first. */
  ghost predicate IsOpenStack(levels: seq<nat>, stack: seq<nat>) {
    && (forall i :: 0 <= i < |stack| ==> stack[i] < |levels| && IsOpen(levels, stack[i]))
    && (forall i, j :: 0 <= i < j < |stack| ==> stack[i] < stack[j])
    && (forall k :: 0 <= k < |levels| && IsOpen(levels, k) ==> k in stack)
  }

  /** The open headings, found by scanning all of them. */
  ghost function OpenUpTo(levels: seq<nat>, n: nat): (open: seq<nat>)
    requires n <= |levels|
    ensures forall i :: 0 <= i < |open| ==> open[i] < n && IsOpen(levels, open[i])
    ensures forall i, j :: 0 <= i < j < |open| ==> open[i] < open[j]
    ensures forall k :: 0 <= k < n && IsOpen(levels, k) ==> k in open
  {
    if n == 0 then []
    else OpenUpTo(levels, n - 1) + (if IsOpen(levels, n - 1) then [n - 1] else [])
  }

  ghost function Open(levels: seq<nat>): (open: seq<nat>)
    ensures IsOpenStack(levels, open)
  {
    OpenUpTo(levels, |levels|)
  }

  lemma {:induction false} AscendingUnique(s: seq<nat>, t: seq<nat>)
    requires forall i, j :: 0 <= i < j < |s| ==> s[i] < s[j]
    requires forall i, j :: 0 <= i < j < |t| ==> t[i] < t[j]
    requires forall x :: x in s <==> x in t
    ensures s == t
  {
    var first := if s != [] then s[0] else if t != [] then t[0] else 0;
    assert first in s <==> first in t;
    if s != [] && t != [] {
      var a, b := s[|s|-1], t[|t|-1];
      assert a in t && b in s;
      assert a == b;
      var s', t' := s[..|s|-1], t[..|t|-1];
      forall x ensures x in s' <==> x in t' {
        assert x in s <==> x in s' || x == a;
        assert x in t <==> x in t' || x == b;
      }
      AscendingUnique(s', t');
      assert s == s' + [a] && t == t' + [b];
    }
  }

  /** The scan result is the only stack that lists the open headings in order. */
  lemma OpenStackUnique(levels: seq<nat>, stack: seq<nat>)
    requires IsOpenStack(levels, stack)
    ensures stack == Open(levels)
  {
    AscendingUnique(stack, Open(levels));
  }

  /** Levels increase strictly from the outermost open heading inwards. */
  lemma OpenLevelsIncrease(levels: seq<nat>, i: nat, j: nat)
    requires i < j < |Open(levels)|
    ensures levels[Open(levels)[i]] < levels[Open(levels)[j]]
  {
  }

  /** What a heading leaves open is itself and the open headings strictly above it. */
  lemma OpenAfter(levels: seq<nat>, level: nat, k: nat)
    requires k < |levels|
    ensures k in Open(levels + [level]) <==> k in Open(levels) && levels[k] < level
  {
    var longer := levels + [level];
    assert forall m :: 0 <= m < |levels| ==> longer[m] == levels[m];
    if IsOpen(longer, k) {
      assert longer[|levels|] == level;
      assert IsOpen(levels, k) by {
        forall m | k < m < |levels| ensures levels[k] < levels[m] { assert longer[m] == levels[m]; }
      }
    }
  }

  /**
   A new heading closes the open headings that are not strictly above it. Those
   are a suffix of the stack, so popping while the top is at or below the new
   level, then pushing, gives the open headings of the longer list.
   */
  lemma PopThenPush(levels: seq<nat>, level: nat, p: nat)
    requires p <= |Open(levels)|
    requires p > 0 ==> levels[Open(levels)[p-1]] < level
    requires forall q :: p <= q < |Open(levels)| ==> levels[Open(levels)[q]] >= level
    ensures Open(levels + [level]) == Open(levels)[..p] + [|levels|]
  {
    var open, longer := Open(levels), levels + [level];
    var stack := open[..p] + [|levels|];
    assert IsOpen(longer, |levels|);
    forall x: nat ensures x in stack <==> x in Open(longer) {
      KeptPrefix(levels, level, p, x);
      if x in Open(longer) {
        assert x <= |levels|;
        if x < |levels| { OpenAfter(levels, level, x); }
      } else if x < |levels| {
        OpenAfter(levels, level, x);
      }
    }
    AscendingUnique(stack, Open(longer));
  }

  lemma KeptPrefix(levels: seq<nat>, level: nat, p: nat, x: nat)
    requires p <= |Open(levels)|
    requires p > 0 ==> levels[Open(levels)[p-1]] < level
    requires forall q :: p <= q < |Open(levels)| ==> levels[Open(levels)[q]] >= level
    ensures x in Open(levels)[..p] <==> x in Open(levels) && levels[x] < level
  {
    var open := Open(levels);
    if x in open {
      var q :| 0 <= q < |open| && open[q] == x;
      if q < p {
        assert open[..p][q] == x;
        if q < p - 1 { OpenLevelsIncrease(levels, q, p - 1); }
      }
    }
  }
}
