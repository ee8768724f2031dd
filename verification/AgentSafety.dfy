/** What every run of the agent graph keeps, across interrupts and resumes. */
module AgentSafety {
  import opened ToolGate
  import opened AgentGraph

  ghost predicate Legal(c: Config, world: World, messages: seq<Message>, events: seq<Event>)
    decreases |events|, 0
  {
    events == [] || (
      var init, last := events[..|events|-1], events[|events|-1];
      Legal(c, world, messages, init) && Enabled(After(c, world, messages, init), last))
  }

  ghost function After(c: Config, world: World, messages: seq<Message>, events: seq<Event>): State
    requires Legal(c, world, messages, events)
    decreases |events|, 1
  {
    if events == [] then Initial(messages)
    else Next(c, world, After(c, world, messages, events[..|events|-1]), events[|events|-1])
  }

  // ---- the calls of one round -----------------------------------------------------------------

  /** Entry `k` is of this round; if it is a handler call, the call was let through, and guarded if gated. */
  ghost predicate EntryFits(c: Config, round: nat, calls: seq<Call>, approvals: seq<bool>, entries: seq<Entry>, k: nat)
    requires k < |entries|
  {
    && (entries[k].Called? || entries[k].Audited?)
    && entries[k].round == round && entries[k].index < |calls|
    && (entries[k].Called? ==> (
          var i := entries[k].index;
          && calls[i].tool in c.tools && entries[k].tool == c.tools[calls[i].tool].name
          && (i < |approvals| ==> approvals[i])
          && Passed(c, c.tools[calls[i].tool], entries, k)))
  }

  /** On the gated route, the gate let the call pass. */
  ghost predicate Passed(c: Config, tool: Tool, entries: seq<Entry>, k: nat)
    requires k < |entries| && entries[k].Called?
  {
    c.route.Gated? ==> Guarded(entries, k, c.route.settings, c.route.subject, tool)
  }

  lemma OneCallFits(c: Config, world: World, round: nat, calls: seq<Call>, approvals: seq<bool>, n: nat, k: nat)
    requires n < |calls| && k < |ActOne(c, world, round, n, calls[n], approvals).1|
    ensures var entries := ActOne(c, world, round, n, calls[n], approvals).1;
      EntryFits(c, round, calls, approvals, entries, k) && entries[k].index == n &&
          (entries[k].Called? ==> k == |entries| - 1)
  {
    var entries := ActOne(c, world, round, n, calls[n], approvals).1;
    if c.route.Gated? && entries[k].Called? {
      GateIsGuarded(c.route.settings, c.route.subject, c.tools[calls[n].tool], round, n, world.auditWorks(round, n), k);
    }
  }

  /** The entries of calls before `n` fit, and handler calls come in call order. */
  ghost predicate RoundFits(c: Config, round: nat, calls: seq<Call>, approvals: seq<bool>, entries: seq<Entry>,
                            n: nat) {
    && (forall k: nat :: k < |entries| ==> EntryFits(c, round, calls, approvals, entries, k) && entries[k].index < n)
    && (forall k, l :: 0 <= k < l < |entries| && entries[k].Called? && entries[l].Called? ==>
        entries[k].index < entries[l].index)
  }

  /** The entries of call `n`: at most one handler call, and it is the last. */
  ghost predicate CallFits(c: Config, round: nat, calls: seq<Call>, approvals: seq<bool>, entries: seq<Entry>, n: nat) {
    forall k: nat :: k < |entries| ==>
      EntryFits(c, round, calls, approvals, entries, k) && entries[k].index == n &&
          (entries[k].Called? ==> k == |entries| - 1)
  }

  lemma RoundGrows(c: Config, round: nat, calls: seq<Call>, approvals: seq<bool>, before: seq<Entry>, added: seq<Entry>,
                   n: nat)
    requires RoundFits(c, round, calls, approvals, before, n) && CallFits(c, round, calls, approvals, added, n)
    ensures RoundFits(c, round, calls, approvals, before + added, n + 1)
  {
    hide Passed;
    var entries := before + added;
    forall k: nat | k < |entries|
      ensures EntryFits(c, round, calls, approvals, entries, k) && entries[k].index < n + 1
    {
      if k < |before| {
        FitsLonger(c, round, calls, approvals, [], before, added, k);
        assert [] + before + added == entries;
      } else {
        FitsLonger(c, round, calls, approvals, before, added, [], k - |before|);
        assert before + added + [] == entries;
      }
    }
  }

  lemma {:induction false} EntriesFit(c: Config, world: World, round: nat, calls: seq<Call>, approvals: seq<bool>,
                                      n: nat)
    requires n <= |calls|
    ensures RoundFits(c, round, calls, approvals, Entries(c, world, round, calls[..n], approvals), n)
  {
    if n > 0 {
      hide EntryFits, ActOne, Entries, RoundFits;
      EntriesFit(c, world, round, calls, approvals, n - 1);
      RepliesOneMore(c, world, round, calls, approvals, n - 1);
      var added := ActOne(c, world, round, n - 1, calls[n-1], approvals).1;
      forall k: nat | k < |added|
        ensures EntryFits(c, round, calls, approvals, added, k) && added[k].index == n - 1 &&
            (added[k].Called? ==> k == |added| - 1)
      {
        OneCallFits(c, world, round, calls, approvals, n - 1, k);
      }
      RoundGrows(c, round, calls, approvals, Entries(c, world, round, calls[..n-1], approvals), added, n - 1);
    }
  }

  lemma FitsLonger(c: Config, round: nat, calls: seq<Call>, approvals: seq<bool>,
                   before: seq<Entry>, entries: seq<Entry>, after: seq<Entry>, k: nat)
    requires k < |entries| && EntryFits(c, round, calls, approvals, entries, k)
    ensures EntryFits(c, round, calls, approvals, before + entries + after, |before| + k)
  {
    PassedLonger(c, before, entries, after, k);
  }

  lemma PassedLonger(c: Config, before: seq<Entry>, entries: seq<Entry>, after: seq<Entry>, k: nat)
    requires k < |entries|
    ensures (before + entries + after)[|before| + k] == entries[k]
    ensures entries[k].Called? ==>
      forall tool :: Passed(c, tool, entries, k) ==> Passed(c, tool, before + entries + after, |before| + k)
  {
  }

  // ---- the whole trail ------------------------------------------------------------------------

  /** The model asked for these calls in this round, before entry `k`. */
  ghost predicate Asked(trail: seq<Entry>, k: nat, round: nat, calls: seq<Call>) {
    exists q :: 0 <= q < k && q < |trail| && trail[q] == Reasoned(round, calls)
  }

  /** A human approved this round's calls before entry `k`. */
  ghost predicate Approved(trail: seq<Entry>, k: nat, round: nat) {
    exists q :: 0 <= q < k && q < |trail| && trail[q] == Resumed(round, true)
  }

  /** The handler call at entry `k` answers a call `asked` of its round, and was let through. */
  ghost predicate Justified(c: Config, trail: seq<Entry>, k: nat, asked: Call)
    requires k < |trail| && trail[k].Called?
  {
    && asked.tool in c.tools && trail[k].tool == c.tools[asked.tool].name
    && (Asks(c, asked) ==> c.mode == Interrupt && Approved(trail, k, trail[k].round))
    && Passed(c, c.tools[asked.tool], trail, k)
  }

  ghost predicate CallSound(c: Config, trail: seq<Entry>, k: nat)
    requires k < |trail| && trail[k].Called?
  {
    exists calls :: Asked(trail, k, trail[k].round, calls) && trail[k].index < |calls|
                    && Justified(c, trail, k, calls[trail[k].index])
  }

  ghost predicate CallsSound(c: Config, trail: seq<Entry>) {
    forall k: nat :: k < |trail| && trail[k].Called? ==> CallSound(c, trail, k)
  }

  /** Handler calls come in order of round, then of place in the model's message. */
  ghost predicate Ascending(trail: seq<Entry>) {
    forall k, l :: 0 <= k < l < |trail| && trail[k].Called? && trail[l].Called? ==>
      trail[k].round < trail[l].round || (trail[k].round == trail[l].round && trail[k].index < trail[l].index)
  }

  ghost predicate RoundsBelow(trail: seq<Entry>, round: nat) {
    forall k :: 0 <= k < |trail| && trail[k].Called? ==> trail[k].round < round
  }

  lemma SoundLonger(c: Config, trail: seq<Entry>, more: seq<Entry>, k: nat)
    requires k < |trail| && trail[k].Called? && CallSound(c, trail, k)
    ensures CallSound(c, trail + more, k)
  {
    hide Passed, Asks;
    var calls :| Asked(trail, k, trail[k].round, calls) && trail[k].index < |calls|
                 && Justified(c, trail, k, calls[trail[k].index]);
    PassedLonger(c, [], trail, more, k);
    assert [] + trail + more == trail + more;
    var q :| 0 <= q < k && q < |trail| && trail[q] == Reasoned(trail[k].round, calls);
    assert (trail + more)[q] == Reasoned(trail[k].round, calls);
    assert Asked(trail + more, k, trail[k].round, calls);
    if Approved(trail, k, trail[k].round) {
      var r :| 0 <= r < k && r < |trail| && trail[r] == Resumed(trail[k].round, true);
      assert (trail + more)[r] == Resumed(trail[k].round, true);
    }
  }

  /** Entries without handler calls keep everything. */
  lemma QuietEntry(c: Config, trail: seq<Entry>, e: Entry, round: nat)
    requires CallsSound(c, trail) && Ascending(trail) && RoundsBelow(trail, round) && !e.Called?
    ensures CallsSound(c, trail + [e]) && Ascending(trail + [e]) && RoundsBelow(trail + [e], round)
  {
    hide CallSound;
    forall k: nat | k < |trail + [e]| && (trail + [e])[k].Called? ensures CallSound(c, trail + [e], k) {
      SoundLonger(c, trail, [e], k);
    }
  }

  /** A round whose calls were asked for, and approved where they ask, keeps everything. */
  lemma RoundKeepsSound(c: Config, trail: seq<Entry>, entries: seq<Entry>, round: nat, calls: seq<Call>,
                        approvals: seq<bool>)
    requires CallsSound(c, trail) && Ascending(trail) && RoundsBelow(trail, round)
    requires RoundFits(c, round, calls, approvals, entries, |calls|) && |approvals| == |calls|
    requires Asked(trail, |trail|, round, calls)
    requires forall i :: 0 <= i < |calls| && Asks(c, calls[i]) && approvals[i] ==>
      c.mode == Interrupt && Approved(trail, |trail|, round)
    ensures CallsSound(c, trail + entries) && Ascending(trail + entries) && RoundsBelow(trail + entries, round + 1)
  {
    hide CallSound, EntryFits;
    var all := trail + entries;
    forall k: nat | k < |all| && all[k].Called? ensures CallSound(c, all, k) {
      if k < |trail| {
        SoundLonger(c, trail, entries, k);
      } else {
        assert EntryFits(c, round, calls, approvals, entries, k - |trail|);
        NewCallSound(c, trail, entries, k - |trail|, round, calls, approvals);
      }
    }
    RoundIs(c, round, calls, approvals, entries);
  }

  lemma RoundIs(c: Config, round: nat, calls: seq<Call>, approvals: seq<bool>, entries: seq<Entry>)
    requires RoundFits(c, round, calls, approvals, entries, |calls|)
    ensures forall k :: 0 <= k < |entries| && entries[k].Called? ==> entries[k].round == round
  {
  }

  lemma NewCallSound(c: Config, trail: seq<Entry>, entries: seq<Entry>, k: nat, round: nat, calls: seq<Call>,
                     approvals: seq<bool>)
    requires k < |entries| && entries[k].Called? && EntryFits(c, round, calls, approvals, entries, k) &&
        |approvals| == |calls|
    requires Asked(trail, |trail|, round, calls)
    requires forall i :: 0 <= i < |calls| && Asks(c, calls[i]) && approvals[i] ==>
      c.mode == Interrupt && Approved(trail, |trail|, round)
    ensures CallSound(c, trail + entries, |trail| + k)
  {
    hide Asks, Passed;
    var all, at, i := trail + entries, |trail| + k, entries[k].index;
    assert all + [] == all;
    PassedLonger(c, trail, entries, [], k);
    var q :| 0 <= q < |trail| && trail[q] == Reasoned(round, calls);
    assert all[q] == Reasoned(round, calls);
    assert Asked(all, at, round, calls);
    if Asks(c, calls[i]) {
      var r :| 0 <= r < |trail| && trail[r] == Resumed(round, true);
      assert all[r] == Resumed(round, true);
    }
    assert Justified(c, all, at, calls[i]);
  }
}
