/** The results on the agent graph: what holds after any number of steps, interrupts and resumes. */
module AgentRuns {
  import opened Common
  import opened ToolGate
  import opened AgentGraph
  import opened AgentSafety

  /** The budget the rounds of a run come out of: even a budget below 1 allows one. */
  function Budget(c: Config): nat {
    if c.maxIterations < 1 then 1 else c.maxIterations
  }

  /** A round's calls are known but have not been run. */
  predicate InRound(s: State) {
    s.node == AtApprove || s.node == AtInterrupt || s.node == AtAct
  }

  ghost predicate TrailSound(c: Config, s: State) {
    && CallsSound(c, s.trail) && Ascending(s.trail)
    && RoundsBelow(s.trail, if InRound(s) then s.iterations else s.iterations + 1)
  }

  ghost predicate RoundSound(c: Config, s: State) {
    var calls := CallsOf(s.messages);
    && (InRound(s) ==> Asked(s.trail, |s.trail|, s.iterations, calls) && 1 <= s.iterations < c.maxIterations)
    && (s.node == AtInterrupt ==> Suspends(c, calls))
    && (s.node == AtAct ==>
          && |s.approvals| == |calls|
          && forall i :: 0 <= i < |calls| && Asks(c, calls[i]) && s.approvals[i] ==>
               c.mode == Interrupt && Approved(s.trail, |s.trail|, s.iterations))
    && (s.node == AtReason ==> s.iterations == 0 || s.iterations < c.maxIterations)
    && s.iterations <= Budget(c)
  }

  /** How often `reason` ran. */
  function Reasons(trail: seq<Entry>): nat {
    if trail == [] then 0
    else Reasons(trail[..|trail|-1]) + if trail[|trail|-1].Reasoned? then 1 else 0
  }

  /** How often `act` ran. */
  function Acts(trail: seq<Entry>): nat {
    if trail == [] then 0
    else Acts(trail[..|trail|-1]) + if trail[|trail|-1].Acting? then 1 else 0
  }

  /** `reason` has run once a round; `act` too, except in the round that is open or was the last. */
  ghost predicate Counted(s: State) {
    && Reasons(s.trail) == s.iterations
    && Acts(s.trail) + (if s.node == AtReason then 0 else 1) == s.iterations
  }

  ghost predicate Inv(c: Config, s: State) {
    TrailSound(c, s) && RoundSound(c, s) && Counted(s)
  }

  // ---- preservation ---------------------------------------------------------------------------

  lemma OneMoreEntry(trail: seq<Entry>, e: Entry)
    ensures Reasons(trail + [e]) == Reasons(trail) + if e.Reasoned? then 1 else 0
    ensures Acts(trail + [e]) == Acts(trail) + if e.Acting? then 1 else 0
  {
    assert (trail + [e])[..|trail|] == trail;
  }

  lemma {:induction false} RoundEntriesDoNotCount(trail: seq<Entry>, entries: seq<Entry>)
    requires forall k :: 0 <= k < |entries| ==> entries[k].Called? || entries[k].Audited?
    ensures Reasons(trail + entries) == Reasons(trail) && Acts(trail + entries) == Acts(trail)
  {
    if entries == [] {
      assert trail + entries == trail;
    } else {
      var init, last := entries[..|entries|-1], entries[|entries|-1];
      RoundEntriesDoNotCount(trail, init);
      OneMoreEntry(trail + init, last);
      assert trail + entries == (trail + init) + [last];
    }
  }

  lemma ActKeepsInv(c: Config, world: World, s: State)
    requires Inv(c, s) && s.node == AtAct
    ensures Inv(c, Next(c, world, s, Act))
  {
    hide Asks, CallsSound, Ascending, RoundsBelow, Replies, Entries, RoundFits, Asked, Approved, Reasons, Acts;
    var calls, s' := CallsOf(s.messages), Next(c, world, s, Act);
    var entries := Entries(c, world, s.iterations, calls, s.approvals);
    var open := s.trail + [Acting(s.iterations)];
    assert calls[..|calls|] == calls;
    EntriesFit(c, world, s.iterations, calls, s.approvals, |calls|);
    QuietEntry(c, s.trail, Acting(s.iterations), s.iterations);
    StillAsked(s.trail, Acting(s.iterations), s.iterations, calls);
    RoundKeepsSound(c, open, entries, s.iterations, calls, s.approvals);
    OneMoreEntry(s.trail, Acting(s.iterations));
    FitsAreQuiet(c, s.iterations, calls, s.approvals, entries);
    RoundEntriesDoNotCount(open, entries);
    assert s'.trail == open + entries;
  }

  lemma StillAsked(trail: seq<Entry>, e: Entry, round: nat, calls: seq<Call>)
    ensures Asked(trail, |trail|, round, calls) ==> Asked(trail + [e], |trail| + 1, round, calls)
    ensures Approved(trail, |trail|, round) ==> Approved(trail + [e], |trail| + 1, round)
  {
    if Asked(trail, |trail|, round, calls) {
      var q :| 0 <= q < |trail| && trail[q] == Reasoned(round, calls);
      assert (trail + [e])[q] == Reasoned(round, calls);
    }
    if Approved(trail, |trail|, round) {
      var q :| 0 <= q < |trail| && trail[q] == Resumed(round, true);
      assert (trail + [e])[q] == Resumed(round, true);
    }
  }

  lemma FitsAreQuiet(c: Config, round: nat, calls: seq<Call>, approvals: seq<bool>, entries: seq<Entry>)
    requires RoundFits(c, round, calls, approvals, entries, |calls|)
    ensures forall k :: 0 <= k < |entries| ==> entries[k].Called? || entries[k].Audited?
  {
    forall k: nat | k < |entries| ensures entries[k].Called? || entries[k].Audited? {
      assert EntryFits(c, round, calls, approvals, entries, k);
    }
  }

  lemma ReasonKeepsInv(c: Config, world: World, s: State)
    requires Inv(c, s) && s.node == AtReason
    ensures Inv(c, Next(c, world, s, Reason))
  {
    hide Asks, CallsSound, Ascending, RoundsBelow, Reasons, Acts, Suspends;
    var s' := Next(c, world, s, Reason);
    var e := s'.trail[|s.trail|];
    QuietEntry(c, s.trail, e, s.iterations + 1);
    OneMoreEntry(s.trail, e);
    assert s'.trail[|s.trail|] == Reasoned(s'.iterations, CallsOf(s'.messages));
    RoundsBelowMore(s'.trail, s'.iterations);
  }

  lemma RoundsBelowMore(trail: seq<Entry>, round: nat)
    requires RoundsBelow(trail, round)
    ensures RoundsBelow(trail, round + 1)
  {
  }

  lemma ResumeKeepsInv(c: Config, world: World, s: State, approved: bool)
    requires Inv(c, s) && s.node == AtInterrupt
    ensures Inv(c, Next(c, world, s, Resume(approved)))
  {
    hide Asks, CallsSound, Ascending, RoundsBelow, Reasons, Acts;
    var s' := Next(c, world, s, Resume(approved));
    var e := Resumed(s.iterations, approved);
    QuietEntry(c, s.trail, e, s.iterations);
    OneMoreEntry(s.trail, e);
    StillAsked(s.trail, e, s.iterations, CallsOf(s.messages));
    assert s'.trail[|s.trail|] == e;
  }

  lemma StepKeepsInv(c: Config, world: World, s: State, e: Event)
    requires Inv(c, s) && Enabled(s, e)
    ensures Inv(c, Next(c, world, s, e))
  {
    match e
    case Reason => ReasonKeepsInv(c, world, s);
    case Resume(approved) => ResumeKeepsInv(c, world, s, approved);
    case Act => ActKeepsInv(c, world, s);
    case Approve => {
      hide Asks, CallsSound, Ascending, RoundsBelow, Reasons, Acts;
    }
    case Finalize => {
      hide Asks, CallsSound, Ascending, RoundsBelow, Reasons, Acts, LastText;
    }
  }

  lemma {:induction false} RunKeepsInv(c: Config, world: World, messages: seq<Message>, events: seq<Event>)
    requires Legal(c, world, messages, events)
    ensures Inv(c, After(c, world, messages, events))
  {
    if events == [] {
      assert Inv(c, Initial(messages));
    } else {
      hide Inv, Next;
      RunKeepsInv(c, world, messages, events[..|events|-1]);
      StepKeepsInv(c, world, After(c, world, messages, events[..|events|-1]), events[|events|-1]);
    }
  }

  // ---- the results ------------------------------------------------------------------------------

  /**
   In every run, however often it is interrupted and resumed: no call of the model reaches
   its handler twice; every handler call answers a call the model made in that round; one that
   asks for approval comes after an approving resume of its round; and on the gated route it
   was allowed by the policy and, if high-risk, directly follows its committed audit row.
   */
  lemma HandlersRunOnce(c: Config, world: World, messages: seq<Message>, events: seq<Event>)
    requires Legal(c, world, messages, events)
    ensures var trail := After(c, world, messages, events).trail;
      && (forall k, l :: 0 <= k < l < |trail| && trail[k].Called? && trail[l].Called? ==>
            trail[k].round != trail[l].round || trail[k].index != trail[l].index)
      && CallsSound(c, trail)
  {
    RunKeepsInv(c, world, messages, events);
  }

  /** `reason` runs at most the budget, `act` once less, in every run. */
  lemma RoundsAreBounded(c: Config, world: World, messages: seq<Message>, events: seq<Event>)
    requires Legal(c, world, messages, events)
    ensures var trail := After(c, world, messages, events).trail;
      Reasons(trail) <= Budget(c) && Acts(trail) <= Budget(c) - 1
  {
    RunKeepsInv(c, world, messages, events);
  }

  /** How many steps a run can still take. */
  function StepsLeft(c: Config, s: State): int {
    4 * (Budget(c) - s.iterations) +
    match s.node
    case AtApprove => 5
    case AtInterrupt => 4
    case AtAct => 3
    case AtReason => 2
    case AtFinalize => 1
    case AtEnd => 0
  }

  lemma StepTakesOne(c: Config, world: World, s: State, e: Event)
    requires Inv(c, s) && Enabled(s, e)
    ensures StepsLeft(c, Next(c, world, s, e)) < StepsLeft(c, s)
  {
    hide TrailSound, Counted, Asked, Approved, Suspends, Replies, Entries, LastText;
  }

  lemma StepsLeftIsNatural(c: Config, s: State)
    requires Inv(c, s)
    ensures StepsLeft(c, s) >= 0
  {
    hide TrailSound, Counted;
  }

  lemma SomeStepIsEnabled(s: State)
    requires s.node != AtEnd
    ensures exists e :: Enabled(s, e)
  {
    assert Enabled(s, match s.node
                      case AtReason => Reason
                      case AtApprove => Approve
                      case AtInterrupt => Resume(true)
                      case AtAct => Act
                      case _ => Finalize);
  }

  /** Every run ends: it has at most 4 * budget + 2 steps, and until its end one is enabled. */
  lemma {:induction false} EveryRunEnds(c: Config, world: World, messages: seq<Message>, events: seq<Event>)
    requires Legal(c, world, messages, events)
    ensures var s := After(c, world, messages, events);
      && |events| <= |events| + StepsLeft(c, s) <= 4 * Budget(c) + 2
      && (s.node != AtEnd ==> exists e :: Enabled(s, e))
  {
    RunKeepsInv(c, world, messages, events);
    var s := After(c, world, messages, events);
    StepsLeftIsNatural(c, s);
    if s.node != AtEnd {
      SomeStepIsEnabled(s);
    }
    if events != [] {
      var init := events[..|events|-1];
      EveryRunEnds(c, world, messages, init);
      RunKeepsInv(c, world, messages, init);
      StepTakesOne(c, world, After(c, world, messages, init), events[|events|-1]);
      hide Inv, Next, StepsLeft;
    }
  }

  /** The runner's mode: no run ever waits for a human, whatever is asked and refused. */
  lemma RejectModeNeverWaits(c: Config, world: World, messages: seq<Message>, events: seq<Event>)
    requires Legal(c, world, messages, events) && c.mode == Reject
    ensures After(c, world, messages, events).node != AtInterrupt
  {
    RunKeepsInv(c, world, messages, events);
  }

  /** In that mode no handler call answers a call that asks for approval. */
  lemma RejectModeRunsNothingThatAsks(c: Config, world: World, messages: seq<Message>, events: seq<Event>, k: nat)
    requires Legal(c, world, messages, events) && c.mode == Reject
    requires var trail := After(c, world, messages, events).trail; k < |trail| && trail[k].Called?
    ensures var trail := After(c, world, messages, events).trail;
      exists calls :: Asked(trail, k, trail[k].round, calls) && trail[k].index < |calls| &&
                      !Asks(c, calls[trail[k].index])
  {
    RunKeepsInv(c, world, messages, events);
    var trail := After(c, world, messages, events).trail;
    hide Legal, After, Asks;
    assert CallSound(c, trail, k);
    var calls :| Asked(trail, k, trail[k].round, calls) && trail[k].index < |calls|
                 && Justified(c, trail, k, calls[trail[k].index]);
    assert !Asks(c, calls[trail[k].index]);
  }

  /**
   After an approving resume, a call that asks is run by act exactly if the route is bare:
   the gate judges it again, without knowing of the approval, and refuses.
   */
  lemma ApprovedCallRunsIffBare(c: Config, world: World, s: State, i: nat)
    requires Inv(c, s) && s.node == AtInterrupt
    requires i < |CallsOf(s.messages)| && Asks(c, CallsOf(s.messages)[i])
    ensures var resumed := Next(c, world, s, Resume(true));
      var call := CallsOf(s.messages)[i];
      var (reply, entries) := ActOne(c, world, s.iterations, i, call, resumed.approvals);
      && resumed.node == AtAct
      && (c.route.Bare? <==> exists k :: 0 <= k < |entries| && entries[k].Called?)
      && (c.route.Gated? ==> reply == ApprovalRequired)
  {
    hide TrailSound, Counted, Asked, Approved;
    var call := CallsOf(s.messages)[i];
    var resumed := Next(c, world, s, Resume(true));
    var (reply, entries) := ActOne(c, world, s.iterations, i, call, resumed.approvals);
    assert resumed.approvals[i];
    if c.route.Bare? {
      assert entries[0].Called?;
    }
  }

  /** A high-risk tool, a subject that is no admin, and the default settings. */
  function RiskyConfig(): Config {
    Config(map["purge" := Tool("purge", "high", false)], 8, Interrupt, Gated(Settings(true, false), None), false)
  }

  /** A model that calls the tool once in its first round, with every handler and audit row working. */
  function RiskyWorld(): World {
    World(round => if round == 1 then ("", [Call("purge", "")]) else ("done", []), (_, _) => "purged", (_, _) => true)
  }

  lemma StartsHere(c: Config, world: World, messages: seq<Message>)
    ensures Legal(c, world, messages, []) && After(c, world, messages, []) == Initial(messages)
  {
  }

  lemma OneMoreStep(c: Config, world: World, messages: seq<Message>, events: seq<Event>, e: Event)
    requires Legal(c, world, messages, events) && Enabled(After(c, world, messages, events), e)
    ensures Legal(c, world, messages, events + [e])
    ensures After(c, world, messages, events + [e]) == Next(c, world, After(c, world, messages, events), e)
  {
    assert (events + [e])[..|events|] == events;
  }

  /** The graph stopped for the approval of that call. */
  function RiskyInterrupt(messages: seq<Message>): State {
    State(AtInterrupt, messages + [Ai("", [Call("purge", "")])], 1, [], [], "", [Reasoned(1, [Call("purge", "")])])
  }

  /** After the human's approval and the act node: the gate refused all the same. */
  function RiskyOutcome(messages: seq<Message>): State {
    State(AtReason, RiskyInterrupt(messages).messages + [ToolReply(0, ApprovalRequired)], 1, [true],
          [Call("purge", "")], "",
          [Reasoned(1, [Call("purge", "")]), Resumed(1, true), Acting(1), Audited(1, 0, Decision(false, "high", true))])
  }

  lemma RiskyCallSuspends(messages: seq<Message>)
    ensures Next(RiskyConfig(), RiskyWorld(), Initial(messages), Reason) == RiskyInterrupt(messages).(node := AtApprove)
    ensures Next(RiskyConfig(), RiskyWorld(), RiskyInterrupt(messages).(node := AtApprove), Approve)
         == RiskyInterrupt(messages)
  {
    assert Asks(RiskyConfig(), [Call("purge", "")][0]);
  }

  lemma RiskyCallIsRefused(messages: seq<Message>)
    ensures var c, world, s := RiskyConfig(), RiskyWorld(), RiskyInterrupt(messages);
      && Next(c, world, s, Resume(true)).node == AtAct
      && Next(c, world, Next(c, world, s, Resume(true)), Act) == RiskyOutcome(messages)
  {
    var c, world, s, call := RiskyConfig(), RiskyWorld(), RiskyInterrupt(messages), Call("purge", "");
    assert Asks(c, [call][0]);
    var resumed := Next(c, world, s, Resume(true));
    assert resumed.approvals == [true];
    ActOnOneCall(c, world, 1, call, [true]);
    var (reply, entries) := ActOne(c, world, 1, 0, call, [true]);
    assert reply == ApprovalRequired && entries == [Audited(1, 0, Decision(false, "high", true))];
    assert resumed.trail + [Acting(1)] + entries == RiskyOutcome(messages).trail;
  }

  /** The run in question: the graph stops for approval, the human approves, and no handler is called. */
  lemma ApprovedCallIsRefused(messages: seq<Message>)
    ensures var c, world := RiskyConfig(), RiskyWorld();
      && Legal(c, world, messages, [Reason, Approve])
      && After(c, world, messages, [Reason, Approve]) == RiskyInterrupt(messages)
      && Legal(c, world, messages, [Reason, Approve, Resume(true), Act])
      && After(c, world, messages, [Reason, Approve, Resume(true), Act]) == RiskyOutcome(messages)
      && (forall k :: 0 <= k < |RiskyOutcome(messages).trail| ==> !RiskyOutcome(messages).trail[k].Called?)
  {
    hide Legal, After, Next, RiskyConfig, RiskyWorld;
    var c, world := RiskyConfig(), RiskyWorld();
    StartsHere(c, world, messages);
    RiskyCallSuspends(messages);
    RiskyCallIsRefused(messages);
    OneMoreStep(c, world, messages, [], Reason);
    assert [] + [Reason] == [Reason];
    OneMoreStep(c, world, messages, [Reason], Approve);
    assert [Reason] + [Approve] == [Reason, Approve];
    OneMoreStep(c, world, messages, [Reason, Approve], Resume(true));
    assert [Reason, Approve] + [Resume(true)] == [Reason, Approve, Resume(true)];
    OneMoreStep(c, world, messages, [Reason, Approve, Resume(true)], Act);
    assert [Reason, Approve, Resume(true)] + [Act] == [Reason, Approve, Resume(true), Act];
  }

  lemma ActOnOneCall(c: Config, world: World, round: nat, call: Call, approvals: seq<bool>)
    ensures var (reply, entries) := ActOne(c, world, round, 0, call, approvals);
      && Replies(c, world, round, [call], approvals) == [ToolReply(0, reply)]
      && Entries(c, world, round, [call], approvals) == entries
  {
    NoReplies(c, world, round, approvals);
    RepliesOneMore(c, world, round, [call], approvals, 0);
    assert [call][..0] == [] && [call][..1] == [call];
  }
}
