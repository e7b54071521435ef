/** The dispatch pipeline (orchestrator/dispatch.py). */
module Dispatching {
  import opened Prelude
  import opened Canonical
  import opened Mandates
  import opened Ledgers
  import opened Artifacts
  import opened Gates
  import opened Sessions

  /** One row of the allowlisted tool table. */
  datatype ToolEntry = ToolEntry(consequence: Consequence, requiredScopes: set<DataScope>, hasHandler: bool)

  /** What an agent proposes, in its own vocabulary. */
  datatype ToolProposal = ToolProposal(agent: AgentId, toolName: string, scopeNames: seq<string>)

  /** What a handler does when it is executed. */
  datatype HandlerAnswer = Returned(artifact: Artifact) | HandlerRaised

  datatype Decision = Executed | Refused | Failed

  datatype DispatchOutcome = DispatchOutcome(
    decision: Decision, tool: Option<ToolId>, result: Option<Artifact>, refusal: Option<RefusalCode>,
    gate: Option<GateOutcome>, ledgered: seq<LedgerEntry>)

  /** What the outcome's constructor insists on. */
  predicate WellFormed(o: DispatchOutcome) {
    && (o.decision != Refused ==> o.refusal == None)
    && (o.decision == Refused && o.refusal == None ==> o.gate.Some? && !o.gate.value.accepted)
    && (o.decision != Executed ==> o.result == None)
  }

  // ------------------------------------------------------------------
  // The pipeline on values
  // ------------------------------------------------------------------

  datatype ScopeAnswer = AllGranted(granted: set<DataScope>) | OneRefused(code: RefusalCode, entry: LedgerEntry)

  // A helper wrote this entry; the session files it with its body.
  function Filed(c: Core, entry: LedgerEntry, payload: Payload): Core {
    c.(chain := c.chain + [entry], events := c.events + [RecordedEvent(entry, payload)])
  }

  function FiledAll(c: Core, entries: seq<LedgerEntry>, payloads: seq<Payload>): Core
    requires |entries| == |payloads|
  {
    if entries == [] then c
    else
      var n := |entries| - 1;
      Filed(FiledAll(c, entries[..n], payloads[..n]), entries[n], payloads[n])
  }

  // One scope name: the guard answers, and a refusal it wrote is filed.
  function AskOne(cfg: Config, c: Core, agent: AgentId, name: string): (Core, GuardResult)
    requires agent in cfg.mandates
  {
    var m := cfg.mandates[agent];
    var guarded := Guard(cfg.codec, c.chain, cfg.clock(c.ticks), agent, m, BindingHash(cfg, Some(agent)), name);
    var next := c.(ticks := c.ticks + 1);
    (if guarded.ScopeRefused? then Filed(next, guarded.entry, guarded.payload) else next, guarded)
  }

  // The clock is read for every name, granted or not; the first refusal ends the asking.
  function RequestScopes(cfg: Config, c: Core, agent: AgentId, names: seq<string>, granted: set<DataScope>)
    : (Core, ScopeAnswer)
    requires agent in cfg.mandates
    decreases |names|
  {
    if names == [] then (c, AllGranted(granted))
    else
      var (next, guarded) := AskOne(cfg, c, agent, names[0]);
      match guarded
      case ScopeGranted(scope) => RequestScopes(cfg, next, agent, names[1..], granted + {scope})
      case ScopeRefused(code, entry, _) => (next, OneRefused(code, entry))
  }

  function RefuseWith(cfg: Config, c: Core, p: ToolProposal, code: RefusalCode, event: EventType,
                      tool: Option<ToolId>, already: seq<LedgerEntry>): (Core, DispatchOutcome)
    requires p.agent in cfg.mandates
  {
    var payload := RefusalPayload(p.agent, p.toolName, p.scopeNames, code);
    (Note(cfg, c, event, Some(p.agent), payload),
     DispatchOutcome(Refused, tool, None, Some(code), None, already + [NewEntry(cfg, c, event, Some(p.agent), payload)]))
  }

  /** The whole pipeline for one proposal; answer is what the handler does if it is executed. */
  function Dispatch(cfg: Config, c: Core, p: ToolProposal, table: map<ToolId, ToolEntry>, checks: GateChecks,
                    answer: HandlerAnswer): (Core, DispatchOutcome)
    requires p.agent in cfg.mandates
  {
    var tool := ResolveTool(p.toolName);
    if tool == None then RefuseWith(cfg, c, p, ToolNotAllowed, MandateViolationAttempt, None, [])
    else if tool.value !in table then RefuseWith(cfg, c, p, ToolNotAllowed, MandateViolationAttempt, tool, [])
    else
      var (asked, scopes) := RequestScopes(cfg, c, p.agent, p.scopeNames, {});
      match scopes
      case OneRefused(code, entry) => RefuseWith(cfg, asked, p, code, MandateViolationAttempt, tool, [entry])
      case AllGranted(granted) => Authorise(cfg, asked, p, tool.value, table[tool.value], granted, checks, answer)
  }

  /** The checks left once every requested scope is granted: the scopes the tool needs, the
      mandate, and whether this build has a handler. */
  function Authorise(cfg: Config, c: Core, p: ToolProposal, tool: ToolId, entry: ToolEntry, granted: set<DataScope>,
                     checks: GateChecks, answer: HandlerAnswer): (Core, DispatchOutcome)
    requires p.agent in cfg.mandates
  {
    var verdict := Validate(ProposedAction(p.agent, tool, entry.consequence, granted), cfg.mandates[p.agent]);
    if entry.requiredScopes - granted != {} then
      RefuseWith(cfg, c, p, ScopeNotAllowed, MandateViolationAttempt, Some(tool), [])
    else if verdict.Refuse? then
      RefuseWith(cfg, c, p, verdict.code, MandateViolationAttempt, Some(tool), [])
    else if !entry.hasHandler then
      RefuseWith(cfg, c, p, ToolHandlerNotInBuild, GateRejection, Some(tool), [])
    else
      Execute(cfg, c, p.agent, tool, entry.consequence, granted, checks, answer)
  }

  /** Execution, the schema check and the gate. */
  function Execute(cfg: Config, c: Core, agent: AgentId, tool: ToolId, consequence: Consequence,
                   granted: set<DataScope>, checks: GateChecks, answer: HandlerAnswer): (Core, DispatchOutcome)
    requires agent in cfg.mandates
  {
    var body0 := CalledPayload(tool, consequence, granted);
    var called := Note(cfg, c, ToolCalled, Some(agent), body0);
    var body1 := ResultPayload(tool, answer.Returned?);
    var ran := Note(cfg, called, ToolResult, Some(agent), body1);
    var ledgered := [NewEntry(cfg, c, ToolCalled, Some(agent), body0),
                     NewEntry(cfg, called, ToolResult, Some(agent), body1)];
    if answer.HandlerRaised? then (ran, DispatchOutcome(Failed, Some(tool), None, None, None, ledgered))
    else if !IsInstance(answer.artifact, cfg.mandates[agent].outputSchema) then WrongSchema(cfg, ran, agent, tool, ledgered)
    else Gated(cfg, ran, agent, tool, consequence, checks, answer.artifact, ledgered)
  }

  function WrongSchema(cfg: Config, c: Core, agent: AgentId, tool: ToolId, already: seq<LedgerEntry>)
    : (Core, DispatchOutcome)
    requires agent in cfg.mandates
  {
    var body := SchemaPayload(tool);
    var failed := Note(cfg, c, VerificationFail, Some(agent), body);
    (Note(cfg, failed, GateRejection, Some(agent), body),
     DispatchOutcome(Failed, Some(tool), None, None, None,
                     already + [NewEntry(cfg, c, VerificationFail, Some(agent), body),
                                NewEntry(cfg, failed, GateRejection, Some(agent), body)]))
  }

  // The gate a dispatch runs: the session's clock, the agent's mandate, and never a signature.
  function GateFor(cfg: Config, c: Core, agent: AgentId, consequence: Consequence, checks: GateChecks,
                   artifact: Artifact): GateOutcome
    requires agent in cfg.mandates
  {
    Gate(cfg.codec, c.chain, cfg.clock(c.ticks), Some(agent), BindingHash(cfg, Some(agent)), consequence, artifact,
         checks, None)
  }

  function Gated(cfg: Config, c: Core, agent: AgentId, tool: ToolId, consequence: Consequence,
                 checks: GateChecks, artifact: Artifact, already: seq<LedgerEntry>): (Core, DispatchOutcome)
    requires agent in cfg.mandates
  {
    var g := GateFor(cfg, c, agent, consequence, checks, artifact);
    (FiledAll(c.(ticks := c.ticks + 1), g.ledgered, g.payloads),
     if g.accepted then DispatchOutcome(Executed, Some(tool), Some(artifact), None, Some(g), already + g.ledgered)
     else DispatchOutcome(Refused, Some(tool), None, None, Some(g), already + g.ledgered))
  }

  // ------------------------------------------------------------------
  // The pipeline on objects
  // ------------------------------------------------------------------

  method AskScope(session: Session, agent: AgentId, name: string) returns (guarded: GuardResult)
    requires session.Wired() && agent in session.cfg.mandates
    modifies session`events, session`ticks, session.ledger
    ensures session.Wired()
    ensures (session.View(), guarded) == AskOne(session.cfg, old(session.View()), agent, name)
  {
    hide Guard, Written;
    var cfg := session.cfg;
    ghost var c := session.View();
    var ts := session.Now();
    ghost var next := session.View();
    guarded := GuardScopeRequest(session.ledger, cfg.codec, ts, agent, cfg.mandates[agent],
                                 BindingHash(cfg, Some(agent)), name);
    GuardIsFaithful(cfg.codec, c.chain, ts, agent, cfg.mandates[agent], BindingHash(cfg, Some(agent)), name);
    if guarded.ScopeRefused? {
      FileAll(session, [guarded.entry], [guarded.payload], next);
    } else {
      assert session.View() == next;
    }
  }

  lemma GuardIsFaithful(codec: Codec, table: seq<LedgerEntry>, ts: Text, agent: AgentId, m: Mandate, mandateHash: Hex,
                        name: string)
    ensures var g := Guard(codec, table, ts, agent, m, mandateHash, name);
            g.ScopeRefused? ==>
              && g.entry.payloadDigest == PayloadDigest(codec, g.payload)
              && g.entry.event == MandateViolationAttempt
              && g.code == ScopeNotAllowed
  {
  }

  method AskScopes(session: Session, agent: AgentId, names: seq<string>) returns (answer: ScopeAnswer)
    requires session.Wired() && agent in session.cfg.mandates
    modifies session`events, session`ticks, session.ledger
    ensures session.Wired()
    ensures (session.View(), answer) == RequestScopes(session.cfg, old(session.View()), agent, names, {})
  {
    var granted := {};
    ghost var start := session.View();
    for i := 0 to |names|
      invariant session.Wired()
      invariant RequestScopes(session.cfg, start, agent, names, {})
                == RequestScopes(session.cfg, session.View(), agent, names[i..], granted)
    {
      assert names[i..][0] == names[i] && names[i..][1..] == names[i + 1..];
      var guarded := AskScope(session, agent, names[i]);
      if guarded.ScopeRefused? {
        return OneRefused(guarded.code, guarded.entry);
      }
      granted := granted + {guarded.scope};
    }
    assert names[|names|..] == [];
    answer := AllGranted(granted);
  }

  // _refuse: ledger a refusal, then return it.
  method RefuseProposal(session: Session, p: ToolProposal, code: RefusalCode, event: EventType, tool: Option<ToolId>,
                        already: seq<LedgerEntry>)
    returns (outcome: DispatchOutcome)
    requires session.Wired() && p.agent in session.cfg.mandates
    modifies session`events, session`ticks, session.ledger
    ensures session.Wired()
    ensures (session.View(), outcome) == RefuseWith(session.cfg, old(session.View()), p, code, event, tool, already)
  {
    var recorded := session.AppendEvent(event, Some(p.agent), RefusalPayload(p.agent, p.toolName, p.scopeNames, code));
    outcome := DispatchOutcome(Refused, tool, None, Some(code), None, already + [recorded.entry]);
  }

  // The gate writes behind the session's back; every entry it wrote is then filed, in order.
  method RunGated(session: Session, agent: AgentId, tool: ToolId, consequence: Consequence, checks: GateChecks,
                  artifact: Artifact, already: seq<LedgerEntry>)
    returns (outcome: DispatchOutcome)
    requires session.Wired() && agent in session.cfg.mandates
    modifies session`events, session`ticks, session.ledger
    ensures session.Wired()
    ensures (session.View(), outcome)
            == Gated(session.cfg, old(session.View()), agent, tool, consequence, checks, artifact, already)
  {
    hide Gate;
    var g := JudgeAndFile(session, agent, consequence, checks, artifact);
    if g.accepted {
      return DispatchOutcome(Executed, Some(tool), Some(artifact), None, Some(g), already + g.ledgered);
    }
    return DispatchOutcome(Refused, Some(tool), None, None, Some(g), already + g.ledgered);
  }

  method JudgeAndFile(session: Session, agent: AgentId, consequence: Consequence, checks: GateChecks, artifact: Artifact)
    returns (g: GateOutcome)
    requires session.Wired() && agent in session.cfg.mandates
    modifies session`events, session`ticks, session.ledger
    ensures session.Wired()
    ensures g == GateFor(session.cfg, old(session.View()), agent, consequence, checks, artifact)
    ensures |g.ledgered| == |g.payloads|
    ensures session.View() == FiledAll(old(session.View()).(ticks := old(session.View()).ticks + 1), g.ledgered, g.payloads)
  {
    hide Gate, Written;
    var cfg := session.cfg;
    ghost var c := session.View();
    var ts := session.Now();
    g := RunGate(session.ledger, cfg.codec, ts, Some(agent), BindingHash(cfg, Some(agent)), consequence, artifact,
                 checks, None);
    GateBodiesMatch(cfg.codec, c.chain, ts, Some(agent), BindingHash(cfg, Some(agent)), consequence, artifact, checks, None);
    FileAll(session, g.ledgered, g.payloads, c.(ticks := c.ticks + 1));
  }

  method FileAll(session: Session, entries: seq<LedgerEntry>, payloads: seq<Payload>, ghost c: Core)
    requires session.Wired() && |entries| == |payloads|
    requires session.View() == c.(chain := c.chain + entries)
    requires forall i | 0 <= i < |entries| :: entries[i].payloadDigest == PayloadDigest(session.cfg.codec, payloads[i])
    modifies session`events
    ensures session.Wired() && session.View() == FiledAll(c, entries, payloads)
  {
    for i := 0 to |entries|
      invariant session.Wired()
      invariant session.View() == FiledAll(c, entries[..i], payloads[..i]).(chain := c.chain + entries)
    {
      assert entries[..i + 1][..i] == entries[..i] && payloads[..i + 1][..i] == payloads[..i];
      var ok := session.AttachEvent(entries[i], payloads[i]);
    }
    assert entries[..|entries|] == entries && payloads[..|payloads|] == payloads;
    FiledAllAppends(c, entries, payloads);
  }

  // Filing many entries appends them all, each with its own body.
  lemma {:induction false} FiledAllAppends(c: Core, entries: seq<LedgerEntry>, payloads: seq<Payload>)
    requires |entries| == |payloads|
    ensures var c' := FiledAll(c, entries, payloads);
            && c'.chain == c.chain + entries
            && |c'.events| == |c.events| + |entries| && c.events <= c'.events
            && (forall i | 0 <= i < |entries| :: c'.events[|c.events| + i] == RecordedEvent(entries[i], payloads[i]))
            && c'.state == c.state && c'.budgets == c.budgets && c'.ticks == c.ticks
    decreases |entries|
  {
    if entries != [] {
      var n := |entries| - 1;
      FiledAllAppends(c, entries[..n], payloads[..n]);
      assert entries == entries[..n] + [entries[n]];
    }
  }

  method RunTool(session: Session, agent: AgentId, tool: ToolId, consequence: Consequence, granted: set<DataScope>,
                 checks: GateChecks, answer: HandlerAnswer)
    returns (outcome: DispatchOutcome)
    requires session.Wired() && agent in session.cfg.mandates
    modifies session`events, session`ticks, session.ledger
    ensures session.Wired()
    ensures (session.View(), outcome)
            == Execute(session.cfg, old(session.View()), agent, tool, consequence, granted, checks, answer)
  {
    hide Written;
    var called := session.AppendEvent(ToolCalled, Some(agent), CalledPayload(tool, consequence, granted));
    var ran := session.AppendEvent(ToolResult, Some(agent), ResultPayload(tool, answer.Returned?));
    var ledgered := [called.entry, ran.entry];
    if answer.HandlerRaised? {
      return DispatchOutcome(Failed, Some(tool), None, None, None, ledgered);
    }
    if !IsInstance(answer.artifact, session.cfg.mandates[agent].outputSchema) {
      outcome := RejectSchema(session, agent, tool, ledgered);
      return;
    }
    outcome := RunGated(session, agent, tool, consequence, checks, answer.artifact, ledgered);
  }

  method RejectSchema(session: Session, agent: AgentId, tool: ToolId, already: seq<LedgerEntry>)
    returns (outcome: DispatchOutcome)
    requires session.Wired() && agent in session.cfg.mandates
    modifies session`events, session`ticks, session.ledger
    ensures session.Wired()
    ensures (session.View(), outcome) == WrongSchema(session.cfg, old(session.View()), agent, tool, already)
  {
    hide Written;
    var failed := session.AppendEvent(VerificationFail, Some(agent), SchemaPayload(tool));
    var rejected := session.AppendEvent(GateRejection, Some(agent), SchemaPayload(tool));
    outcome := DispatchOutcome(Failed, Some(tool), None, None, None, already + [failed.entry, rejected.entry]);
  }

  /** dispatch: the whole pipeline over one session. An agent the session does not know is an error
      that touches nothing. */
  method DispatchProposal(session: Session, p: ToolProposal, table: map<ToolId, ToolEntry>, checks: GateChecks,
                          answer: HandlerAnswer)
    returns (r: Result<DispatchOutcome, Error>)
    requires session.Wired()
    modifies session`events, session`ticks, session.ledger
    ensures session.Wired()
    ensures r.Ok? <==> p.agent in session.cfg.mandates
    ensures r.Ok? ==> (session.View(), r.value) == Dispatch(session.cfg, old(session.View()), p, table, checks, answer)
    ensures r.Err? ==> r.error == UnknownAgent && session.View() == old(session.View())
  {
    var cfg := session.cfg;
    if p.agent !in cfg.mandates {
      return Err(UnknownAgent);
    }
    var outcome;
    var tool := ResolveTool(p.toolName);
    if tool == None {
      outcome := RefuseProposal(session, p, ToolNotAllowed, MandateViolationAttempt, None, []);
      return Ok(outcome);
    }
    if tool.value !in table {
      outcome := RefuseProposal(session, p, ToolNotAllowed, MandateViolationAttempt, tool, []);
      return Ok(outcome);
    }
    var entry := table[tool.value];
    var scopes := AskScopes(session, p.agent, p.scopeNames);
    if scopes.OneRefused? {
      outcome := RefuseProposal(session, p, scopes.code, MandateViolationAttempt, tool, [scopes.entry]);
      return Ok(outcome);
    }
    if entry.requiredScopes - scopes.granted != {} {
      outcome := RefuseProposal(session, p, ScopeNotAllowed, MandateViolationAttempt, tool, []);
      return Ok(outcome);
    }
    var verdict := Validate(ProposedAction(p.agent, tool.value, entry.consequence, scopes.granted), cfg.mandates[p.agent]);
    if verdict.Refuse? {
      outcome := RefuseProposal(session, p, verdict.code, MandateViolationAttempt, tool, []);
      return Ok(outcome);
    }
    if !entry.hasHandler {
      outcome := RefuseProposal(session, p, ToolHandlerNotInBuild, GateRejection, tool, []);
      return Ok(outcome);
    }
    outcome := RunTool(session, p.agent, tool.value, entry.consequence, scopes.granted, checks, answer);
    return Ok(outcome);
  }
}
