/**
 The agent graph of app/agent/graph.py: reason, approve, act and finalize over a state that
 survives an interrupt. A suspended graph is resumed by running the whole approve node
 again with the human's decision.
 */
module AgentGraph {
  import opened Common
  import opened ToolGate

  datatype Message =
    | Ai(text: string, calls: seq<Call>)
    | ToolReply(index: nat, reply: Reply)
    | Prompt(text: string)

  datatype Mode = Interrupt | Reject

  /** How tools are run: bare, or through the gate when the context carries settings. */
  datatype Route = Bare | Gated(settings: Settings, subject: Option<Subject>)

  datatype Config = Config(tools: map<string, Tool>, maxIterations: int, mode: Mode, route: Route, isAdmin: bool)

  /** What the model, the handlers and the audit table do, whatever it may be. */
  datatype World = World(model: nat -> (string, seq<Call>), output: (nat, nat) -> string,
                         auditWorks: (nat, nat) -> bool)

  datatype Node = AtReason | AtApprove | AtInterrupt | AtAct | AtFinalize | AtEnd

  datatype State = State(
    node: Node, messages: seq<Message>, iterations: nat, approvals: seq<bool>, steps: seq<Call>, answer: string,
    trail: seq<Entry>)

  // ---- approve --------------------------------------------------------------------------------

  /** `_needs_approval` */
  function NeedsApproval(route: Route, tool: Tool): bool {
    match route
    case Bare => tool.requiresApproval
    case Gated(settings, subject) => Judged(settings, subject, tool).requiresApproval
  }

  predicate Asks(c: Config, call: Call) {
    call.tool in c.tools && !c.isAdmin && NeedsApproval(c.route, c.tools[call.tool])
  }

  predicate AnyAsks(c: Config, calls: seq<Call>) {
    exists i :: 0 <= i < |calls| && Asks(c, calls[i])
  }

  /** The verdict on every call: those that ask are approved only by an approving resume. */
  function Verdicts(c: Config, calls: seq<Call>, approved: bool): (r: seq<bool>)
    ensures |r| == |calls|
  {
    seq(|calls|, i requires 0 <= i < |calls| => approved || !Asks(c, calls[i]))
  }

  /** The approve node waits for a human. */
  predicate Suspends(c: Config, calls: seq<Call>) {
    c.mode == Interrupt && AnyAsks(c, calls)
  }

  // ---- act ------------------------------------------------------------------------------------

  /** What one call comes to: the model's reply and the entries it leaves. */
  function ActOne(c: Config, world: World, round: nat, index: nat, call: Call, approvals: seq<bool>):
    (Reply, seq<Entry>)
  {
    if call.tool !in c.tools then (UnknownTool, [])
    else if index < |approvals| && !approvals[index] then
      (if c.mode == Reject then ApprovalRequired else NotApproved, [])
    else
      var tool, output := c.tools[call.tool], world.output(round, index);
      match c.route
      case Bare => (Output(output), [Called(round, index, tool.name)])
      case Gated(settings, subject) =>
        var d, audits := Judged(settings, subject, tool), world.auditWorks(round, index);
        (GateReply(d, audits, output), GateEntries(d, round, index, tool.name, audits))
  }

  function Replies(c: Config, world: World, round: nat, calls: seq<Call>, approvals: seq<bool>): (r: seq<Message>)
    ensures |r| == |calls|
  {
    if calls == [] then []
    else
      var n := |calls| - 1;
      Replies(c, world, round, calls[..n], approvals) +
          [ToolReply(n, ActOne(c, world, round, n, calls[n], approvals).0)]
  }

  function Entries(c: Config, world: World, round: nat, calls: seq<Call>, approvals: seq<bool>): seq<Entry> {
    if calls == [] then []
    else
      var n := |calls| - 1;
      Entries(c, world, round, calls[..n], approvals) + ActOne(c, world, round, n, calls[n], approvals).1
  }

  // ---- the graph --------------------------------------------------------------------------------

  function CallsOf(messages: seq<Message>): seq<Call> {
    if messages != [] && messages[|messages|-1].Ai? then messages[|messages|-1].calls else []
  }

  /** `route`: the budget comes before the tool calls. */
  function AfterReason(c: Config, iterations: nat, calls: seq<Call>): Node {
    if iterations >= c.maxIterations then AtFinalize
    else if calls != [] then AtApprove
    else AtFinalize
  }

  /** The last model message that says anything. */
  function LastText(messages: seq<Message>): string {
    if messages == [] then ""
    else
      var last := messages[|messages|-1];
      if last.Ai? && last.text != "" then last.text else LastText(messages[..|messages|-1])
  }

  /** Message `k` says `text`, and no later model message says anything. */
  ghost predicate SaysLast(messages: seq<Message>, k: nat, text: string) {
    && k < |messages| && messages[k].Ai? && messages[k].text == text
    && forall l :: k < l < |messages| && messages[l].Ai? ==> messages[l].text == ""
  }

  /** The answer is the text of a model message, and no later one says anything. */
  lemma {:induction false} LastTextIs(messages: seq<Message>)
    ensures LastText(messages) == "" ==> forall k :: 0 <= k < |messages| && messages[k].Ai? ==> messages[k].text == ""
    ensures LastText(messages) != "" ==> exists k: nat :: SaysLast(messages, k, LastText(messages))
  {
    if messages != [] {
      var last := messages[|messages|-1];
      LastTextIs(messages[..|messages|-1]);
      if last.Ai? && last.text != "" {
        assert SaysLast(messages, |messages| - 1, last.text);
      } else if LastText(messages) != "" {
        var init := messages[..|messages|-1];
        var k: nat :| SaysLast(init, k, LastText(init));
        assert SaysLast(messages, k, LastText(messages));
      }
    }
  }

  datatype Event = Reason | Approve | Resume(approved: bool) | Act | Finalize

  predicate Enabled(s: State, e: Event) {
    match e
    case Reason => s.node == AtReason
    case Approve => s.node == AtApprove
    case Resume(_) => s.node == AtInterrupt
    case Act => s.node == AtAct
    case Finalize => s.node == AtFinalize
  }

  function Next(c: Config, world: World, s: State, e: Event): State
    requires Enabled(s, e)
  {
    var calls := CallsOf(s.messages);
    match e
    case Reason =>
      var (text, asked) := world.model(s.iterations + 1);
      s.(node := AfterReason(c, s.iterations + 1, asked), messages := s.messages + [Ai(text, asked)],
         iterations := s.iterations + 1, trail := s.trail + [Reasoned(s.iterations + 1, asked)])
    case Approve =>
      if Suspends(c, calls) then s.(node := AtInterrupt)
      else s.(node := AtAct, approvals := Verdicts(c, calls, false))
    case Resume(approved) =>
      s.(node := AtAct, approvals := Verdicts(c, calls, Suspends(c, calls) && approved),
         trail := s.trail + [Resumed(s.iterations, approved)])
    case Act =>
      s.(node := AtReason, messages := s.messages + Replies(c, world, s.iterations, calls, s.approvals),
         steps := s.steps + calls,
         trail := s.trail + [Acting(s.iterations)] + Entries(c, world, s.iterations, calls, s.approvals))
    case Finalize => s.(node := AtEnd, answer := LastText(s.messages))
  }

  function Initial(messages: seq<Message>): State {
    State(AtReason, messages, 0, [], [], "", [])
  }

  class Graph {
    const config: Config
    const trail: Trail
    var node: Node
    var messages: seq<Message>
    var iterations: nat
    var approvals: seq<bool>
    var steps: seq<Call>
    var answer: string

    ghost function Value(): State
      reads this, trail
    {
      State(node, messages, iterations, approvals, steps, answer, trail.entries)
    }

    constructor (config: Config, messages: seq<Message>)
      ensures Value() == Initial(messages) && this.config == config && fresh(trail)
    {
      this.config := config;
      trail := new Trail();
      node, iterations, approvals, steps, answer := AtReason, 0, [], [], "";
      this.messages := messages;
    }

    method ReasonNode(world: World)
      requires node == AtReason
      modifies this, trail
      ensures Value() == Next(config, world, old(Value()), Reason)
    {
      var (text, calls) := world.model(iterations + 1);
      messages := messages + [Ai(text, calls)];
      iterations := iterations + 1;
      trail.entries := trail.entries + [Reasoned(iterations, calls)];
      if iterations >= config.maxIterations {
        node := AtFinalize;
      } else if calls != [] {
        node := AtApprove;
      } else {
        node := AtFinalize;
      }
    }

    /** The calls that ask for approval start out refused. */
    method Collect(calls: seq<Call>) returns (verdicts: seq<bool>, pending: seq<nat>)
      ensures verdicts == Verdicts(config, calls, false)
      ensures |verdicts| == |calls| && forall i :: 0 <= i < |calls| ==> (verdicts[i] <==> !Asks(config, calls[i]))
      ensures forall i :: i in pending <==> 0 <= i < |calls| && Asks(config, calls[i])
      ensures pending != [] <==> AnyAsks(config, calls)
    {
      verdicts, pending := seq(|calls|, _ => true), [];
      for index := 0 to |calls|
        invariant |verdicts| == |calls|
        invariant forall i :: 0 <= i < |calls| ==> verdicts[i] == (i >= index || !Asks(config, calls[i]))
        invariant forall i :: i in pending <==> 0 <= i < index && Asks(config, calls[i])
      {
        var call := calls[index];
        if call.tool !in config.tools || config.isAdmin {
          continue;
        }
        if !NeedsApproval(config.route, config.tools[call.tool]) {
          continue;
        }
        verdicts := verdicts[index := false];
        pending := pending + [index];
      }
      if pending != [] {
        assert pending[0] in pending;
      }
      if AnyAsks(config, calls) {
        var i :| 0 <= i < |calls| && Asks(config, calls[i]);
        assert i in pending;
      }
    }

    /** The approve node, from the top: `resume` is what `interrupt` gives back, None the first time. */
    method ApproveNode(resume: Option<bool>)
      requires if resume.None? then node == AtApprove else node == AtInterrupt
      modifies this, trail
      ensures Value() == Next(config, World(_ => ("", []), (_, _) => "", (_, _) => false), old(Value()),
                              if resume.None? then Approve else Resume(resume.value))
      ensures node == AtInterrupt || node == AtAct
      ensures node == AtInterrupt <==>
        resume.None? && config.mode == Interrupt && AnyAsks(config, CallsOf(old(messages)))
      ensures node == AtAct ==>
        && |approvals| == |CallsOf(old(messages))|
        && forall i :: 0 <= i < |approvals| ==>
             (approvals[i] <==> !Asks(config, CallsOf(old(messages))[i])
                                || (resume == Some(true) && config.mode == Interrupt))
    {
      var calls := CallsOf(messages);
      var verdicts, pending := Collect(calls);
      hide Asks;
      if resume.Some? {
        trail.entries := trail.entries + [Resumed(iterations, resume.value)];
      }
      if pending != [] && config.mode == Interrupt {
        if resume.None? {
          node := AtInterrupt;
          return;
        }
        if resume.value {
          for k := 0 to |pending|
            invariant |verdicts| == |calls|
            invariant forall i :: 0 <= i < |calls| ==> verdicts[i] == (!Asks(config, calls[i]) || i in pending[..k])
          {
            assert pending[k] in pending;
            verdicts := verdicts[pending[k] := true];
          }
          assert pending[..|pending|] == pending;
        }
      }
      approvals := verdicts;
      node := AtAct;
    }

    /** One call of the act node. */
    method RunCall(world: World, index: nat, call: Call) returns (reply: Reply)
      modifies trail
      ensures reply == ActOne(config, world, iterations, index, call, approvals).0
      ensures trail.entries == old(trail.entries) + ActOne(config, world, iterations, index, call, approvals).1
    {
      if call.tool in config.tools && index < |approvals| && !approvals[index] {
        return if config.mode == Reject then ApprovalRequired else NotApproved;
      }
      if call.tool !in config.tools {
        return UnknownTool;
      }
      var tool := config.tools[call.tool];
      match config.route
      case Gated(settings, subject) =>
        reply := ExecuteWithPolicy(trail, tool, settings, subject, iterations, index,
                                   world.auditWorks(iterations, index), world.output(iterations, index));
      case Bare =>
        trail.entries := trail.entries + [Called(iterations, index, tool.name)];
        reply := Output(world.output(iterations, index));
    }

    /** The only node that runs tools; every call becomes a step and is answered, executed or not. */
    method ActNode(world: World)
      requires node == AtAct
      modifies this, trail
      ensures Value() == Next(config, world, old(Value()), Act)
    {
      hide Replies, Entries, ActOne;
      var calls := CallsOf(messages);
      var replies: seq<Message> := [];
      NoReplies(config, world, iterations, approvals);
      trail.entries := trail.entries + [Acting(iterations)];
      ghost var start, done := trail.entries, [];
      for index := 0 to |calls|
        invariant replies == Replies(config, world, iterations, calls[..index], approvals)
        invariant done == Entries(config, world, iterations, calls[..index], approvals)
        invariant trail.entries == start + done
        invariant steps == old(steps) + calls[..index]
        invariant unchanged(`node, `messages, `iterations, `approvals, `answer)
      {
        hide *;
        var call := calls[index];
        assert calls[..index+1] == calls[..index] + [call];
        RepliesOneMore(config, world, iterations, calls, approvals, index);
        var reply := RunCall(world, index, call);
        done := done + ActOne(config, world, iterations, index, call, approvals).1;
        steps := steps + [call];
        replies := replies + [ToolReply(index, reply)];
      }
      assert calls[..|calls|] == calls;
      messages := messages + replies;
      node := AtReason;
    }

    method FinalizeNode(world: World)
      requires node == AtFinalize
      modifies this
      ensures Value() == Next(config, world, old(Value()), Finalize)
    {
      var text, k: nat := "", |messages|;
      assert messages[..|messages|] == messages;
      while k > 0 && text == ""
        invariant k <= |messages|
        invariant LastText(messages) == if text != "" then text else LastText(messages[..k])
      {
        k := k - 1;
        assert messages[..k+1][..k] == messages[..k];
        if messages[k].Ai? {
          text := messages[k].text;
        }
      }
      answer := text;
      node := AtEnd;
    }
  }

  lemma NoReplies(c: Config, world: World, round: nat, approvals: seq<bool>)
    ensures Replies(c, world, round, [], approvals) == [] && Entries(c, world, round, [], approvals) == []
  {
  }

  lemma RepliesOneMore(c: Config, world: World, round: nat, calls: seq<Call>, approvals: seq<bool>, n: nat)
    requires n < |calls|
    ensures Replies(c, world, round, calls[..n+1], approvals) ==
      Replies(c, world, round, calls[..n], approvals) +
          [ToolReply(n, ActOne(c, world, round, n, calls[n], approvals).0)]
    ensures Entries(c, world, round, calls[..n+1], approvals) ==
      Entries(c, world, round, calls[..n], approvals) + ActOne(c, world, round, n, calls[n], approvals).1
  {
    hide ActOne;
    assert calls[..n+1][..n] == calls[..n];
  }
}
