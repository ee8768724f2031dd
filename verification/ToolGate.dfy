/**
 Policy and the one place tools are executed: `PolicyEngine.evaluate` (app/policy/engine.py)
 and `execute_with_policy` (app/tools/gate.py). The trail records, in order, what was
 committed to the audit table and which handler calls were made.
 */
module ToolGate {
  import opened Common

  datatype Subject = Subject(id: string, roles: seq<string>) {
    predicate IsAdmin() { "admin" in roles }
  }

  const ANONYMOUS := Subject("anonymous", ["user"])

  datatype Settings = Settings(highRiskNeedsApproval: bool, denyHighRisk: bool)
  datatype Tool = Tool(name: string, risk: string, requiresApproval: bool)
  datatype Decision = Decision(allowed: bool, risk: string, requiresApproval: bool)

  function Evaluate(settings: Settings, subject: Subject, toolRisk: string, toolRequiresApproval: bool): Decision {
    var risk := if toolRisk == "" then "low" else toolRisk;
    if risk == "high" && !subject.IsAdmin() && settings.highRiskNeedsApproval then Decision(false, risk, true)
    else if risk == "high" && !subject.IsAdmin() && settings.denyHighRisk then Decision(false, risk, false)
    else if toolRequiresApproval && !subject.IsAdmin() then Decision(false, risk, true)
    else Decision(true, risk, false)
  }

  /**
   Admins may do everything; others exactly what neither asks for approval nor is denied as
   high risk. What requires approval is never allowed.
   */
  lemma WhoMayDoWhat(settings: Settings, subject: Subject, risk: string, explicit: bool)
    ensures var d := Evaluate(settings, subject, risk, explicit);
      && (d.allowed <==>
            (subject.IsAdmin() ||
             (!explicit && (risk == "high" ==> !settings.highRiskNeedsApproval && !settings.denyHighRisk))))
      && (d.requiresApproval <==>
            (!subject.IsAdmin() && ((risk == "high" && settings.highRiskNeedsApproval) ||
                                    (explicit && (risk == "high" ==> !settings.denyHighRisk)))))
      && !(d.allowed && d.requiresApproval)
      && (d.risk == "high" <==> risk == "high")
  {
  }

  datatype Call = Call(tool: string, arguments: string)

  /** A call is known by the round of the graph it belongs to and its place in the model's message. */
  datatype Entry =
    | Reasoned(round: nat, calls: seq<Call>)
    | Resumed(round: nat, approved: bool)
    | Acting(round: nat)
    | Audited(round: nat, index: nat, decision: Decision)
    | Called(round: nat, index: nat, tool: string)

  /** What the model reads back for a call. */
  datatype Reply = Output(text: string) | ApprovalRequired | PolicyDenied | AuditUnavailable | NotApproved | UnknownTool

  class Trail {
    var entries: seq<Entry>

    constructor ()
      ensures entries == []
    {
      entries := [];
    }
  }

  function Judged(settings: Settings, subject: Option<Subject>, tool: Tool): Decision {
    Evaluate(settings, if subject.Some? then subject.value else ANONYMOUS, tool.risk, tool.requiresApproval)
  }

  /** Whether the handler runs: allowed, and if high-risk, audited. */
  predicate Executes(d: Decision, auditWorks: bool) {
    d.allowed && (d.risk == "high" ==> auditWorks)
  }

  /** Every denial and every call above low risk is audited, if the audit table takes it. */
  function GateEntries(d: Decision, round: nat, index: nat, tool: string, auditWorks: bool): seq<Entry> {
    (if (d.risk != "low" || !d.allowed) && auditWorks then [Audited(round, index, d)] else []) +
    if Executes(d, auditWorks) then [Called(round, index, tool)] else []
  }

  function GateReply(d: Decision, auditWorks: bool, output: string): Reply {
    if Executes(d, auditWorks) then Output(output)
    else if d.allowed then AuditUnavailable
    else if d.requiresApproval then ApprovalRequired
    else PolicyDenied
  }

  /** `execute_with_policy`; `output` is what the handler would return, `auditWorks` whether the audit row commits. */
  method ExecuteWithPolicy(trail: Trail, tool: Tool, settings: Settings, subject: Option<Subject>,
                           round: nat, index: nat, auditWorks: bool, output: string)
    returns (reply: Reply)
    modifies trail
    ensures trail.entries == old(trail.entries) +
        GateEntries(Judged(settings, subject, tool), round, index, tool.name, auditWorks)
    ensures reply == GateReply(Judged(settings, subject, tool), auditWorks, output)
  {
    var subj := if subject.Some? then subject.value else ANONYMOUS;
    var decision := Evaluate(settings, subj, tool.risk, tool.requiresApproval);
    var audited := true;
    if decision.risk != "low" || !decision.allowed {
      audited := auditWorks;
      if auditWorks {
        trail.entries := trail.entries + [Audited(round, index, decision)];
      }
    }
    if !decision.allowed {
      if decision.requiresApproval {
        return ApprovalRequired;
      }
      return PolicyDenied;
    }
    if !audited && decision.risk == "high" {
      return AuditUnavailable;
    }
    trail.entries := trail.entries + [Called(round, index, tool.name)];
    reply := Output(output);
  }

  /**
   What the gate lets through: a handler call was allowed by the policy, and if it was
   high-risk the entry just before it is its committed audit row.
   */
  ghost predicate Guarded(entries: seq<Entry>, k: nat, settings: Settings, subject: Option<Subject>, tool: Tool)
    requires k < |entries| && entries[k].Called?
  {
    var d := Judged(settings, subject, tool);
    d.allowed && (d.risk == "high" ==> k > 0 && entries[k-1] == Audited(entries[k].round, entries[k].index, d))
  }

  lemma GateIsGuarded(settings: Settings, subject: Option<Subject>, tool: Tool, round: nat, index: nat,
                      auditWorks: bool, k: nat)
    requires var entries := GateEntries(Judged(settings, subject, tool), round, index, tool.name, auditWorks);
      k < |entries| && entries[k].Called?
    ensures var entries := GateEntries(Judged(settings, subject, tool), round, index, tool.name, auditWorks);
      k == |entries| - 1 && entries[k] == Called(round, index, tool.name) &&
          Guarded(entries, k, settings, subject, tool)
  {
  }
}
