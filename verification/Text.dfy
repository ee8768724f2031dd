/** Python's text primitives on sequences of code points: strip, splitlines, join. */
module Text {
  import opened Common

  /** The characters for which `str.isspace` holds. */
  predicate IsSpace(c: char) {
    var n := c as int;
    9 <= n <= 13 || 28 <= n <= 32 || n == 0x85 || n == 0xA0 || n == 0x1680 || 0x2000 <= n <= 0x200A ||
    n == 0x2028 || n == 0x2029 || n == 0x202F || n == 0x205F || n == 0x3000
  }

  /** The characters at which `str.splitlines` ends a line. */
  predicate IsBreak(c: char) {
    var n := c as int;
    10 <= n <= 13 || 28 <= n <= 30 || n == 0x85 || n == 0x2028 || n == 0x2029
  }

  predicate HasBreak(s: string) {
    exists i :: 0 <= i < |s| && IsBreak(s[i])
  }

  function LStrip(s: string): string {
    if s != "" && IsSpace(s[0]) then LStrip(s[1..]) else s
  }

  function RStrip(s: string): string {
    if s != "" && IsSpace(s[|s|-1]) then RStrip(s[..|s|-1]) else s
  }

  function Strip(s: string): string {
    RStrip(LStrip(s))
  }

  /** `not s.strip()` */
  predicate Blank(s: string) {
    Strip(s) == ""
  }

  ghost predicate AllSpace(s: string) {
    forall k :: 0 <= k < |s| ==> IsSpace(s[k])
  }

  lemma {:induction false} LStripIs(s: string)
    ensures |LStrip(s)| <= |s| && LStrip(s) == s[|s|-|LStrip(s)|..] && AllSpace(s[..|s|-|LStrip(s)|])
    ensures LStrip(s) != "" ==> !IsSpace(LStrip(s)[0])
  {
    if s != "" && IsSpace(s[0]) {
      LStripIs(s[1..]);
      assert s[..|s|-|LStrip(s)|] == [s[0]] + s[1..][..|s|-1-|LStrip(s)|];
    }
  }

  lemma {:induction false} RStripIs(s: string)
    ensures |RStrip(s)| <= |s| && RStrip(s) == s[..|RStrip(s)|] && AllSpace(s[|RStrip(s)|..])
    ensures RStrip(s) != "" ==> !IsSpace(RStrip(s)[|RStrip(s)|-1])
  {
    if s != "" && IsSpace(s[|s|-1]) {
      var init := s[..|s|-1];
      RStripIs(init);
      assert s[|RStrip(s)|..] == init[|RStrip(s)|..] + [s[|s|-1]];
    }
  }

  /** `not s.strip()` means that the text is nothing but space. */
  lemma BlankIsAllSpace(s: string)
    ensures Blank(s) <==> AllSpace(s)
  {
    hide IsSpace, LStrip, RStrip;
    LStripIs(s);
    RStripIs(LStrip(s));
    var front := s[..|s|-|LStrip(s)|];
    assert s == front + LStrip(s);
    if Blank(s) {
      assert s == front + "";
      forall k | 0 <= k < |s| ensures IsSpace(s[k]) {
        assert s[k] == front[k];
      }
    } else {
      assert s[|front|] == LStrip(s)[0];
    }
  }

  /** `t` is `s` without the space at its two ends. */
  ghost predicate IsStripped(s: string, t: string) {
    && (exists i, j :: IsMiddle(s, t, i, j))
    && (t != "" ==> !IsSpace(t[0]) && !IsSpace(t[|t|-1]))
  }

  ghost predicate IsMiddle(s: string, t: string, i: int, j: int) {
    0 <= i <= j <= |s| && t == s[i..j] && AllSpace(s[..i]) && AllSpace(s[j..])
  }

  lemma StripIs(s: string)
    ensures IsStripped(s, Strip(s))
  {
    hide IsSpace, LStrip, RStrip;
    LStripIs(s);
    RStripIs(LStrip(s));
    var i := |s| - |LStrip(s)|;
    var j := i + |Strip(s)|;
    assert s[j..] == LStrip(s)[|Strip(s)|..];
    assert IsMiddle(s, Strip(s), i, j);
    if Strip(s) != "" {
      assert Strip(s)[0] == LStrip(s)[0];
    }
  }

  /** Index of the first line-breaking character, or the length. */
  function FirstBreak(s: string): (i: nat)
    ensures i <= |s|
    ensures i < |s| ==> IsBreak(s[i])
    ensures forall k :: 0 <= k < i ==> !IsBreak(s[k])
  {
    if s == "" || IsBreak(s[0]) then 0 else 1 + FirstBreak(s[1..])
  }

  /** `str.splitlines()`: a carriage return and line feed together end one line. */
  function SplitLines(s: string): (lines: seq<string>)
    ensures forall k :: 0 <= k < |lines| ==> !HasBreak(lines[k])
    decreases |s|
  {
    if s == "" then []
    else
      var i := FirstBreak(s);
      if i == |s| then [s]
      else
        var width := if s[i] == '\r' && i + 1 < |s| && s[i+1] == '\n' then 2 else 1;
        [s[..i]] + SplitLines(s[i+width..])
  }

  /** The lines, each with what ended it. */
  function Woven(lines: seq<string>, ends: seq<string>): string
    requires |lines| == |ends|
  {
    if lines == [] then "" else lines[0] + ends[0] + Woven(lines[1..], ends[1..])
  }

  /**
   What `splitlines` cuts at: every line but the last has one breaking character behind it, or
   a carriage return and line feed, which are never taken apart; the last may have nothing.
   */
  ghost predicate AreEnds(lines: seq<string>, ends: seq<string>) {
    && |ends| == |lines|
    && (forall k :: 0 <= k < |ends| ==> IsLineEnd(ends[k]) || (ends[k] == "" && k == |ends| - 1 && lines[k] != ""))
    && (forall k :: 0 <= k < |ends| - 1 ==> !Torn(ends[k], lines[k+1] + ends[k+1]))
  }

  predicate IsLineEnd(end: string) {
    end == "\r\n" || (|end| == 1 && IsBreak(end[0]))
  }

  /** A carriage return is cut off the line feed behind it. */
  predicate Torn(end: string, next: string) {
    end == "\r" && next != "" && next[0] == '\n'
  }

  lemma {:induction false} SplitLinesIs(s: string) returns (ends: seq<string>)
    ensures AreEnds(SplitLines(s), ends) && Woven(SplitLines(s), ends) == s
    decreases |s|
  {
    hide IsBreak, AreEnds, Woven, SplitLines, FirstBreak, IsLineEnd;
    if s == "" || FirstBreak(s) == |s| {
      ends := if s == "" then [] else [""];
      OneLineEnds(s);
    } else {
      var line, end, rest := FirstLineOf(s);
      var tail := SplitLinesIs(rest);
      ends := [end] + tail;
      EndsBehind(line, end, SplitLines(rest), tail);
      WovenCons(line, end, SplitLines(rest), tail);
    }
  }

  lemma OneLineEnds(s: string)
    requires s == "" || FirstBreak(s) == |s|
    ensures s == "" ==> AreEnds(SplitLines(s), []) && Woven(SplitLines(s), []) == s
    ensures s != "" ==> AreEnds(SplitLines(s), [""]) && Woven(SplitLines(s), [""]) == s
  {
    if s != "" {
      assert [s][1..] == [] && [""][1..] == [] && SplitLines(s) == [s];
      assert s + "" + "" == s;
    }
  }

  lemma FirstLineOf(s: string) returns (line: string, end: string, rest: string)
    requires s != "" && FirstBreak(s) < |s|
    ensures s == line + end + rest && |rest| < |s| && SplitLines(s) == [line] + SplitLines(rest)
    ensures IsLineEnd(end) && !Torn(end, rest)
  {
    hide FirstBreak, IsBreak;
    var i := FirstBreak(s);
    var width := if s[i] == '\r' && i + 1 < |s| && s[i+1] == '\n' then 2 else 1;
    line, end, rest := s[..i], s[i..i+width], s[i+width..];
    if width == 2 {
      assert end == "\r\n";
    }
  }

  lemma WovenCons(line: string, end: string, lines: seq<string>, ends: seq<string>)
    requires |lines| == |ends|
    ensures Woven([line] + lines, [end] + ends) == line + end + Woven(lines, ends)
  {
    assert ([line] + lines)[1..] == lines && ([end] + ends)[1..] == ends;
  }

  lemma EndsBehind(line: string, end: string, lines: seq<string>, ends: seq<string>)
    requires AreEnds(lines, ends) && IsLineEnd(end) && !Torn(end, Woven(lines, ends))
    ensures |lines| == |ends| && AreEnds([line] + lines, [end] + ends)
  {
    hide IsLineEnd, Torn;
    var more, all := [line] + lines, [end] + ends;
    forall k | 0 <= k < |all| - 1 ensures !Torn(all[k], more[k+1] + all[k+1]) {
      if k == 0 {
        FrontNotTorn(end, lines[0] + ends[0], Woven(lines[1..], ends[1..]));
      } else {
        assert all[k] == ends[k-1] && more[k+1] == lines[k] && all[k+1] == ends[k];
      }
    }
    forall k | 0 <= k < |all|
      ensures IsLineEnd(all[k]) || (all[k] == "" && k == |all| - 1 && more[k] != "")
    {
      if k > 0 {
        assert all[k] == ends[k-1] && more[k] == lines[k-1];
      }
    }
  }

  lemma FrontNotTorn(end: string, front: string, back: string)
    requires !Torn(end, front + back)
    ensures !Torn(end, front)
  {
    assert front != "" ==> (front + back)[0] == front[0];
  }

  lemma {:induction false} JoinCons(head: string, tail: seq<string>)
    requires tail != []
    ensures Join([head] + tail, "\n") == head + "\n" + Join(tail, "\n")
  {
    var whole := [head] + tail;
    assert whole[..|whole|-1] == [head] + tail[..|tail|-1];
    if |tail| > 1 {
      JoinCons(head, tail[..|tail|-1]);
      assert whole[|whole|-1] == tail[|tail|-1];
      assert Join(whole, "\n") == head + "\n" + (Join(tail[..|tail|-1], "\n") + "\n" + tail[|tail|-1]);
    } else {
      assert whole[..1] == [head];
    }
  }

  /**
   Joining lines by newlines and splitting again gives the lines back, except
   that an empty last line is lost.
   */
  lemma {:induction false} SplitOfJoin(lines: seq<string>)
    requires forall k :: 0 <= k < |lines| ==> !HasBreak(lines[k])
    ensures SplitLines(Join(lines, "\n")) ==
            if lines != [] && lines[|lines|-1] == "" then lines[..|lines|-1] else lines
  {
    if |lines| > 1 {
      var head, tail := lines[0], lines[1..];
      assert lines == [head] + tail;
      JoinCons(head, tail);
      var s := Join(lines, "\n");
      assert s == head + "\n" + Join(tail, "\n");
      assert s[|head|] == '\n' && IsBreak(s[|head|]);
      assert !HasBreak(lines[0]);
      forall k | 0 <= k < |head| ensures !IsBreak(s[k]) { assert s[k] == head[k]; }
      assert FirstBreak(s) == |head|;
      assert s[|head|+1..] == Join(tail, "\n");
      assert s[..|head|] == head;
      SplitOfJoin(tail);
    } else if |lines| == 1 {
      var s := lines[0];
      assert !HasBreak(s);
      assert forall k :: 0 <= k < |s| ==> !IsBreak(s[k]);
    }
  }
}
