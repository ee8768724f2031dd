/**
 What becomes of every call the model makes, in any run of the agent graph: which calls are
 approved, which reach their handler, what is audited, and what the model reads back.
 */
module AgentAnswers {
  import opened Common
  import opened ToolGate
  import opened AgentGraph
  import opened AgentSafety
  import opened AgentRuns

  /** The round's calls were approved by a human. */
  predicate HumanApproved(trail: seq<Entry>, round: nat) {
    Resumed(round, true) in trail
  }

  /** The policy lets the subject use the tool. */
  predicate MayUse(settings: Settings, subject: Option<Subject>, tool: Tool) {
    (subject.Some? && "admin" in subject.value.roles) ||
    (!tool.requiresApproval && (tool.risk == "high" ==> !settings.highRiskNeedsApproval && !settings.denyHighRisk))
  }

  /** The policy asks for an approval instead. */
  predicate MustAsk(settings: Settings, subject: Option<Subject>, tool: Tool) {
    !(subject.Some? && "admin" in subject.value.roles) &&
    ((tool.risk == "high" && settings.highRiskNeedsApproval) ||
     (tool.requiresApproval && (tool.risk == "high" ==> !settings.denyHighRisk)))
  }

  /** A call asks for approval: of a known tool, not by an admin, by the tool's mark or by the policy. */
  lemma AsksExactly(c: Config, call: Call)
    ensures Asks(c, call) <==>
      call.tool in c.tools && !c.isAdmin &&
      match c.route
      case Bare => c.tools[call.tool].requiresApproval
      case Gated(settings, subject) => MustAsk(settings, subject, c.tools[call.tool])
  {
    if call.tool in c.tools && c.route.Gated? {
      JudgedIs(c.route.settings, c.route.subject, c.tools[call.tool]);
    }
  }

  lemma JudgedIs(settings: Settings, subject: Option<Subject>, tool: Tool)
    ensures var d := Judged(settings, subject, tool);
      && (d.allowed <==> MayUse(settings, subject, tool))
      && (d.requiresApproval <==> MustAsk(settings, subject, tool))
      && (d.risk == "high" <==> tool.risk == "high")
      && (d.risk == "low" <==> tool.risk == "low" || tool.risk == "")
  {
    WhoMayDoWhat(settings, if subject.Some? then subject.value else ANONYMOUS, tool.risk, tool.requiresApproval);
  }

  // ---- the verdicts -----------------------------------------------------------------------------

  /** The calls of an open round are the model's, and what its trail says of approvals is in the verdicts. */
  ghost predicate VerdictsFit(c: Config, world: World, s: State) {
    && (InRound(s) ==>
          && s.messages != []
          && s.messages[|s.messages|-1] == Ai(world.model(s.iterations).0, world.model(s.iterations).1))
    && (forall e :: e in s.trail && e.Resumed? ==>
          e.round < s.iterations || (e.round == s.iterations && s.node != AtApprove && s.node != AtInterrupt))
    && (forall e :: e in s.trail && e.Audited? ==>
          e.round < s.iterations || (e.round == s.iterations && !InRound(s)))
    && (s.node == AtAct ==>
          && |s.approvals| == |world.model(s.iterations).1|
          && forall i :: 0 <= i < |s.approvals| ==>
               (s.approvals[i] <==>
                 !Asks(c, world.model(s.iterations).1[i]) || HumanApproved(s.trail, s.iterations)))
  }

  lemma StepKeepsVerdicts(c: Config, world: World, s: State, e: Event)
    requires Inv(c, s) && VerdictsFit(c, world, s) && Enabled(s, e)
    ensures VerdictsFit(c, world, Next(c, world, s, e))
  {
    hide Asks, TrailSound, Counted, Asked, Approved, LastText;
    if e.Act? {
      RoundEntriesDoNotResume(c, world, s);
    } else {
      hide Entries;
      if e.Approve? && !Suspends(c, CallsOf(s.messages)) && c.mode == Reject {
        assert !HumanApproved(s.trail, s.iterations);
      }
    }
  }

  lemma RoundEntriesDoNotResume(c: Config, world: World, s: State)
    requires s.node == AtAct
    ensures forall e :: e in Next(c, world, s, Act).trail && e.Resumed? ==> e in s.trail
    ensures forall e :: e in Next(c, world, s, Act).trail && e.Audited? ==> e in s.trail || e.round == s.iterations
  {
    hide Entries;
    var calls := CallsOf(s.messages);
    assert calls[..|calls|] == calls;
    EntriesFit(c, world, s.iterations, calls, s.approvals, |calls|);
    var entries := Entries(c, world, s.iterations, calls, s.approvals);
    forall k: nat | k < |entries|
      ensures !entries[k].Resumed? && (entries[k].Audited? ==> entries[k].round == s.iterations)
    {
      assert EntryFits(c, s.iterations, calls, s.approvals, entries, k);
    }
  }

  lemma {:induction false} RunKeepsVerdicts(c: Config, world: World, messages: seq<Message>, events: seq<Event>)
    requires Legal(c, world, messages, events)
    ensures VerdictsFit(c, world, After(c, world, messages, events))
  {
    if events == [] {
      assert VerdictsFit(c, world, Initial(messages));
    } else {
      hide Inv, Next, VerdictsFit;
      var init := events[..|events|-1];
      RunKeepsInv(c, world, messages, init);
      RunKeepsVerdicts(c, world, messages, init);
      StepKeepsVerdicts(c, world, After(c, world, messages, init), events[|events|-1]);
    }
  }

  /**
   Whenever act is about to run, in any run: a call of the round is approved if and only if it
   does not ask for approval, or the human approved the round.
   */
  lemma ApprovedIffFreeOrGranted(c: Config, world: World, messages: seq<Message>, events: seq<Event>)
    requires Legal(c, world, messages, events) && After(c, world, messages, events).node == AtAct
    ensures var s := After(c, world, messages, events);
      var calls := world.model(s.iterations).1;
      && |s.approvals| == |calls|
      && forall i :: 0 <= i < |calls| ==>
           (s.approvals[i] <==> !Asks(c, calls[i]) || HumanApproved(s.trail, s.iterations))
  {
    RunKeepsVerdicts(c, world, messages, events);
  }

  // ---- one round of act -------------------------------------------------------------------------

  /** On this route nothing but the approval stands between the call and its handler. */
  predicate LetThrough(c: Config, world: World, round: nat, i: nat, tool: Tool) {
    match c.route
    case Bare => true
    case Gated(settings, subject) =>
      MayUse(settings, subject, tool) && (tool.risk == "high" ==> world.auditWorks(round, i))
  }

  /** What the model reads back for call `i`, by what stopped it if anything did. */
  ghost predicate ReplyFits(c: Config, world: World, round: nat, i: nat, call: Call, granted: bool, reply: Reply) {
    if call.tool !in c.tools then reply == UnknownTool
    else if Asks(c, call) && !granted then reply == if c.mode == Reject then ApprovalRequired else NotApproved
    else if LetThrough(c, world, round, i, c.tools[call.tool]) then reply == Output(world.output(round, i))
    else if MayUse(c.route.settings, c.route.subject, c.tools[call.tool]) then reply == AuditUnavailable
    else if MustAsk(c.route.settings, c.route.subject, c.tools[call.tool]) then reply == ApprovalRequired
    else reply == PolicyDenied
  }

  /** The call got as far as its route: a known tool, and no approval missing. */
  predicate Reached(c: Config, call: Call, granted: bool) {
    call.tool in c.tools && (Asks(c, call) ==> granted)
  }

  /** The handler runs exactly if the call got there and is let through. */
  predicate Runs(c: Config, world: World, round: nat, i: nat, call: Call, granted: bool) {
    Reached(c, call, granted) && LetThrough(c, world, round, i, c.tools[call.tool])
  }

  /** The gate audits what it denies and everything above low risk, where the audit table takes it. */
  predicate Audits(c: Config, world: World, round: nat, i: nat, call: Call, granted: bool) {
    Reached(c, call, granted) && c.route.Gated? && world.auditWorks(round, i) &&
    var tool := c.tools[call.tool];
    !MayUse(c.route.settings, c.route.subject, tool) || (tool.risk != "low" && tool.risk != "")
  }

  lemma ActOneIs(c: Config, world: World, round: nat, i: nat, call: Call, approvals: seq<bool>, granted: bool)
    requires i < |approvals| && (approvals[i] <==> !Asks(c, call) || granted)
    ensures var (reply, entries) := ActOne(c, world, round, i, call, approvals);
      && ReplyFits(c, world, round, i, call, granted, reply)
      && (forall e :: e in entries && e.Called? <==>
            Runs(c, world, round, i, call, granted) && e == Called(round, i, c.tools[call.tool].name))
      && ((exists e :: e in entries && e.Audited?) <==> Audits(c, world, round, i, call, granted))
      && (forall e :: e in entries ==> (e.Called? || e.Audited?) && e.round == round && e.index == i)
  {
    if call.tool in c.tools && c.route.Gated? {
      JudgedIs(c.route.settings, c.route.subject, c.tools[call.tool]);
      hide Judged, MayUse, MustAsk, Asks;
      var (_, entries) := ActOne(c, world, round, i, call, approvals);
      if Audits(c, world, round, i, call, granted) {
        assert entries[0].Audited? && entries[0] in entries;
      }
    }
  }

  lemma {:induction false} RepliesAt(c: Config, world: World, round: nat, calls: seq<Call>, approvals: seq<bool>,
                                     n: nat, i: nat)
    requires i < n <= |calls|
    ensures Replies(c, world, round, calls[..n], approvals)[i]
         == ToolReply(i, ActOne(c, world, round, i, calls[i], approvals).0)
  {
    hide ActOne, Replies;
    RepliesOneMore(c, world, round, calls, approvals, n - 1);
    if i < n - 1 {
      RepliesAt(c, world, round, calls, approvals, n - 1, i);
    }
  }

  lemma {:induction false} EntriesAre(c: Config, world: World, round: nat, calls: seq<Call>, approvals: seq<bool>,
                                      n: nat, e: Entry)
    requires n <= |calls|
    ensures e in Entries(c, world, round, calls[..n], approvals) <==>
      exists i :: 0 <= i < n && e in ActOne(c, world, round, i, calls[i], approvals).1
  {
    hide ActOne, Entries;
    if n == 0 {
      NoReplies(c, world, round, approvals);
      assert calls[..0] == [];
    } else {
      RepliesOneMore(c, world, round, calls, approvals, n - 1);
      EntriesAre(c, world, round, calls, approvals, n - 1, e);
      if e in ActOne(c, world, round, n - 1, calls[n-1], approvals).1 {
        assert 0 <= n - 1 < n;
      }
    }
  }

  /** The entries a round leaves for its call `i` are those of that call. */
  lemma EntriesOfCall(c: Config, world: World, round: nat, calls: seq<Call>, approvals: seq<bool>, i: nat,
                      granted: bool, e: Entry)
    requires i < |calls| == |approvals|
    requires forall k :: 0 <= k < |calls| ==> (approvals[k] <==> !Asks(c, calls[k]) || granted)
    requires (e.Called? || e.Audited?) && e.index == i
    ensures e in Entries(c, world, round, calls, approvals) <==>
            e in ActOne(c, world, round, i, calls[i], approvals).1
  {
    hide ActOne, Asks, Entries, Runs, Audits, ReplyFits;
    assert calls[..|calls|] == calls;
    EntriesAre(c, world, round, calls, approvals, |calls|, e);
    if e in Entries(c, world, round, calls, approvals) {
      var k :| 0 <= k < |calls| && e in ActOne(c, world, round, k, calls[k], approvals).1;
      ActOneIs(c, world, round, k, calls[k], approvals, granted);
    }
  }

  /** A handler call, or an audit row, of call `i` of the round. */
  predicate CallOf(e: Entry, round: nat, i: nat) {
    e.Called? && e.round == round && e.index == i
  }

  predicate AuditOf(e: Entry, round: nat, i: nat) {
    e.Audited? && e.round == round && e.index == i
  }

  /**
   The act node, in any run: every call of the round gets a reply in its place; its handler is
   called, by its name, exactly if the tool is known, no approval is missing, and the route
   lets it through; an audit row is left exactly where the gate owes one and can write it;
   and a call that is not run reads back why.
   */
  lemma EveryCallIsAnswered(c: Config, world: World, messages: seq<Message>, events: seq<Event>, i: nat)
    requires Legal(c, world, messages, events) && After(c, world, messages, events).node == AtAct
    requires i < |world.model(After(c, world, messages, events).iterations).1|
    ensures Legal(c, world, messages, events + [Act])
    ensures var s, s' := After(c, world, messages, events), After(c, world, messages, events + [Act]);
      var round, calls := s.iterations, world.model(s.iterations).1;
      var granted := HumanApproved(s.trail, round);
      && s'.node == AtReason && |s'.messages| == |s.messages| + |calls| && s'.steps == s.steps + calls
      && s'.messages[|s.messages| + i].ToolReply? && s'.messages[|s.messages| + i].index == i
      && ReplyFits(c, world, round, i, calls[i], granted, s'.messages[|s.messages| + i].reply)
      && (forall e :: e in s'.trail && CallOf(e, round, i) <==>
            Runs(c, world, round, i, calls[i], granted) && e == Called(round, i, c.tools[calls[i].tool].name))
      && (forall k, l :: 0 <= k < l < |s'.trail| && CallOf(s'.trail[k], round, i) ==> !CallOf(s'.trail[l], round, i))
      && ((exists e :: e in s'.trail && AuditOf(e, round, i)) <==> Audits(c, world, round, i, calls[i], granted))
  {
    hide Legal, After, Inv, Runs, Audits, ReplyFits, Asks, Replies, Entries, HumanApproved;
    var s := After(c, world, messages, events);
    OneMoreStep(c, world, messages, events, Act);
    RunKeepsInv(c, world, messages, events);
    RunKeepsVerdicts(c, world, messages, events);
    OneRound(c, world, s, i);
    HandlersRunOnce(c, world, messages, events + [Act]);
  }

  lemma OneRound(c: Config, world: World, s: State, i: nat)
    requires Inv(c, s) && VerdictsFit(c, world, s) && s.node == AtAct && i < |world.model(s.iterations).1|
    ensures var s', round, calls := Next(c, world, s, Act), s.iterations, world.model(s.iterations).1;
      var granted := HumanApproved(s.trail, round);
      && s'.node == AtReason && |s'.messages| == |s.messages| + |calls| && s'.steps == s.steps + calls
      && s'.messages[|s.messages| + i].ToolReply? && s'.messages[|s.messages| + i].index == i
      && ReplyFits(c, world, round, i, calls[i], granted, s'.messages[|s.messages| + i].reply)
      && (forall e :: e in s'.trail && CallOf(e, round, i) <==>
            Runs(c, world, round, i, calls[i], granted) && e == Called(round, i, c.tools[calls[i].tool].name))
      && ((exists e :: e in s'.trail && AuditOf(e, round, i)) <==> Audits(c, world, round, i, calls[i], granted))
  {
    hide Inv, Audits, ReplyFits, Asks, Replies, Entries, HumanApproved, ActOne, LetThrough, VerdictsFit;
    AtActFits(c, world, s);
    var s', round, calls := Next(c, world, s, Act), s.iterations, world.model(s.iterations).1;
    var granted := HumanApproved(s.trail, round);
    ActOneIs(c, world, round, i, calls[i], s.approvals, granted);
    assert calls[..|calls|] == calls;
    RepliesAt(c, world, round, calls, s.approvals, |calls|, i);
    var added := ActOne(c, world, round, i, calls[i], s.approvals).1;
    forall e: Entry | (e.Called? || e.Audited?) && e.index == i
      ensures e in Entries(c, world, round, calls, s.approvals) <==> e in added
    {
      EntriesOfCall(c, world, round, calls, s.approvals, i, granted, e);
    }
    assert forall e :: e in s'.trail <==>
      e in s.trail || e == Acting(round) || e in Entries(c, world, round, calls, s.approvals);
    forall e ensures e in s'.trail && CallOf(e, round, i) <==>
      Runs(c, world, round, i, calls[i], granted) && e == Called(round, i, c.tools[calls[i].tool].name)
    {
    }
    if Audits(c, world, round, i, calls[i], granted) {
      var e :| e in added && e.Audited?;
      assert e in s'.trail && AuditOf(e, round, i);
    }
  }

  lemma AtActFits(c: Config, world: World, s: State)
    requires Inv(c, s) && VerdictsFit(c, world, s) && s.node == AtAct
    ensures var calls := world.model(s.iterations).1;
      && CallsOf(s.messages) == calls && |s.approvals| == |calls|
      && forall i :: 0 <= i < |calls| ==>
           (s.approvals[i] <==> !Asks(c, calls[i]) || HumanApproved(s.trail, s.iterations))
    ensures forall e :: e in s.trail && (e.Called? || e.Audited?) ==> e.round < s.iterations
  {
    hide RoundSound, Counted, CallsSound, Ascending;
  }

  // ---- reason and finalize ----------------------------------------------------------------------

  /**
   After every model reply: tool calls are taken up while the budget lasts, and a reply
   without calls, or the one that uses up the budget, leads to the answer.
   */
  lemma RepliesGoOnOrEnd(c: Config, world: World, messages: seq<Message>, events: seq<Event>)
    requires Legal(c, world, messages, events) && After(c, world, messages, events).node == AtReason
    ensures Legal(c, world, messages, events + [Reason])
    ensures var s, s' := After(c, world, messages, events), After(c, world, messages, events + [Reason]);
      var (text, calls) := world.model(s.iterations + 1);
      && s'.messages == s.messages + [Ai(text, calls)] && s'.iterations == s.iterations + 1
      && (s'.node == AtApprove <==> calls != [] && s'.iterations < c.maxIterations)
      && (s'.node == AtFinalize <==> calls == [] || s'.iterations >= c.maxIterations)
  {
    hide Legal, After;
    OneMoreStep(c, world, messages, events, Reason);
  }

  /** A reply that says something and calls no tool is the answer. */
  lemma LastReplyIsTheAnswer(c: Config, world: World, messages: seq<Message>, events: seq<Event>)
    requires Legal(c, world, messages, events) && After(c, world, messages, events).node == AtReason
    requires var s := After(c, world, messages, events);
      world.model(s.iterations + 1).0 != "" && world.model(s.iterations + 1).1 == []
    ensures Legal(c, world, messages, events + [Reason] + [Finalize])
    ensures var s := After(c, world, messages, events);
      var s' := After(c, world, messages, events + [Reason] + [Finalize]);
      s'.node == AtEnd && s'.answer == world.model(s.iterations + 1).0
  {
    hide Legal, After;
    OneMoreStep(c, world, messages, events, Reason);
    OneMoreStep(c, world, messages, events + [Reason], Finalize);
  }
}
