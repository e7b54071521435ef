/** What every dispatch keeps, writes and lets through. */
module DispatchProofs {
  import opened Prelude
  import opened Canonical
  import opened Mandates
  import opened Ledgers
  import opened Artifacts
  import opened Gates
  import opened Sessions
  import opened Dispatching

  function EventsOf(entries: seq<LedgerEntry>): seq<EventType> {
    seq(|entries|, i requires 0 <= i < |entries| => entries[i].event)
  }

  /** c' is c with exactly these entries added, all accounted for; nothing else moved but the clock. */
  ghost predicate Adds(cfg: Config, past: seq<LedgerEntry>, c: Core, c': Core, entries: seq<LedgerEntry>) {
    && Sound(cfg, past, c')
    && c'.chain == c.chain + entries && c.events <= c'.events
    && c'.state == c.state && c'.budgets == c.budgets
  }

  lemma NoteAdds(cfg: Config, past: seq<LedgerEntry>, c: Core, event: EventType, agent: AgentId, p: Payload)
    requires agent in cfg.mandates && Sound(cfg, past, c)
    ensures Adds(cfg, past, c, Note(cfg, c, event, Some(agent), p), [NewEntry(cfg, c, event, Some(agent), p)])
    ensures Note(cfg, c, event, Some(agent), p).events
            == c.events + [RecordedEvent(NewEntry(cfg, c, event, Some(agent), p), p)]
    ensures NewEntry(cfg, c, event, Some(agent), p).event == event
  {
    hide Written;
    NoteKeepsSound(cfg, past, c, event, Some(agent), p);
    WrittenIsFaithful(cfg.codec, c.chain, cfg.clock(c.ticks), Some(agent), BindingHash(cfg, Some(agent)), event, p);
  }

  lemma AddsTrans(cfg: Config, past: seq<LedgerEntry>, c: Core, d: Core, e: Core, xs: seq<LedgerEntry>, ys: seq<LedgerEntry>)
    requires Adds(cfg, past, c, d, xs) && Adds(cfg, past, d, e, ys)
    ensures Adds(cfg, past, c, e, xs + ys)
    ensures EventsOf(xs + ys) == EventsOf(xs) + EventsOf(ys)
  {
  }

  // ------------------------------------------------------------------
  // Asking for scopes
  // ------------------------------------------------------------------

  predicate NameAllowed(name: string, m: Mandate) {
    ResolveScope(name).Some? && ResolveScope(name).value in m.dataScopes
  }

  predicate NamesAllowed(names: seq<string>, m: Mandate) {
    forall i | 0 <= i < |names| :: NameAllowed(names[i], m)
  }

  /** The scopes a list of allowed names stands for. */
  function Requested(names: seq<string>): set<DataScope> {
    set n | n in names && ResolveScope(n).Some? :: ResolveScope(n).value
  }

  lemma RequestedCons(names: seq<string>)
    requires names != [] && ResolveScope(names[0]).Some?
    ensures Requested(names) == {ResolveScope(names[0]).value} + Requested(names[1..])
  {
    assert names == [names[0]] + names[1..];
  }

  // A granted name costs one clock reading; a refused one also one entry and one event.
  lemma AskOneAdds(cfg: Config, past: seq<LedgerEntry>, c: Core, agent: AgentId, name: string)
    requires agent in cfg.mandates && Sound(cfg, past, c)
    ensures var (c', g) := AskOne(cfg, c, agent, name);
            if NameAllowed(name, cfg.mandates[agent])
            then g == ScopeGranted(ResolveScope(name).value) && c' == c.(ticks := c.ticks + 1)
            else g.ScopeRefused? && g.code == ScopeNotAllowed && g.entry.event == MandateViolationAttempt
                 && Adds(cfg, past, c, c', [g.entry])
  {
    hide Written;
    var m := cfg.mandates[agent];
    var ts, mh := cfg.clock(c.ticks), BindingHash(cfg, Some(agent));
    var (c', g) := AskOne(cfg, c, agent, name);
    if !NameAllowed(name, m) {
      WrittenIsFaithful(cfg.codec, c.chain, ts, Some(agent), mh, MandateViolationAttempt, g.payload);
      FilingKeepsSound(cfg, past, c, ts, Some(agent), mh, MandateViolationAttempt, g.payload, c');
    }
  }

  /** Scopes are granted all together or not at all: every name allowed, and exactly the named
      scopes are granted and nothing is written; otherwise one violation attempt is. */
  lemma {:induction false} ScopesAllOrNothing(cfg: Config, past: seq<LedgerEntry>, c: Core, agent: AgentId,
                                              names: seq<string>, granted: set<DataScope>)
    requires agent in cfg.mandates && Sound(cfg, past, c)
    ensures var (c', answer) := RequestScopes(cfg, c, agent, names, granted);
            if NamesAllowed(names, cfg.mandates[agent])
            then answer == AllGranted(granted + Requested(names)) && c' == c.(ticks := c.ticks + |names|)
            else answer.OneRefused? && answer.code == ScopeNotAllowed && answer.entry.event == MandateViolationAttempt
                 && Adds(cfg, past, c, c', [answer.entry])
    decreases |names|
  {
    hide AskOne, Sound;
    if names != [] {
      AskOneAdds(cfg, past, c, agent, names[0]);
      var (next, g) := AskOne(cfg, c, agent, names[0]);
      TickAdds(cfg, past, c, c.ticks + 1);
      if NameAllowed(names[0], cfg.mandates[agent]) {
        RequestedCons(names);
        ScopesAllOrNothing(cfg, past, next, agent, names[1..], granted + {g.scope});
        assert NamesAllowed(names, cfg.mandates[agent]) <==> NamesAllowed(names[1..], cfg.mandates[agent]) by {
          assert names == [names[0]] + names[1..];
        }
        assert granted + {g.scope} + Requested(names[1..]) == granted + Requested(names);
      }
    }
  }

  // ------------------------------------------------------------------
  // Execution
  // ------------------------------------------------------------------

  lemma RefuseAdds(cfg: Config, past: seq<LedgerEntry>, c: Core, d: Core, p: ToolProposal, code: RefusalCode,
                   event: EventType, tool: Option<ToolId>, already: seq<LedgerEntry>)
    requires p.agent in cfg.mandates && Sound(cfg, past, c) && Adds(cfg, past, c, d, already)
    ensures var (c', o) := RefuseWith(cfg, d, p, code, event, tool, already);
            && Adds(cfg, past, c, c', o.ledgered)
            && EventsOf(o.ledgered) == EventsOf(already) + [event]
            && o.decision == Refused && o.refusal == Some(code) && o.gate == None && o.result == None
  {
    hide NewEntry;
    var payload := RefusalPayload(p.agent, p.toolName, p.scopeNames, code);
    NoteAdds(cfg, past, d, event, p.agent, payload);
    var e := NewEntry(cfg, d, event, Some(p.agent), payload);
    AddsTrans(cfg, past, c, d, Note(cfg, d, event, Some(p.agent), payload), already, [e]);
    assert EventsOf([e]) == [event];
  }

  lemma {:induction false} GateEntriesKeepSound(cfg: Config, past: seq<LedgerEntry>, c: Core, ts: Text, agent: AgentId,
                                                mandateHash: Hex, consequence: Consequence, failures: seq<GateFailure>,
                                                events: seq<EventType>)
    requires Sound(cfg, past, c)
    ensures var entries := GateEntries(cfg.codec, c.chain, ts, Some(agent), mandateHash, consequence, failures, events);
            Adds(cfg, past, c, FiledAll(c, entries, GatePayloads(consequence, failures, events)), entries)
    decreases |events|
  {
    hide Written;
    if events != [] {
      var n := |events| - 1;
      GateEntriesKeepSound(cfg, past, c, ts, agent, mandateHash, consequence, failures, events[..n]);
      var before := GateEntries(cfg.codec, c.chain, ts, Some(agent), mandateHash, consequence, failures, events[..n]);
      var entries := GateEntries(cfg.codec, c.chain, ts, Some(agent), mandateHash, consequence, failures, events);
      var bodies := GatePayloads(consequence, failures, events);
      assert entries[..n] == before && bodies[..n] == GatePayloads(consequence, failures, events[..n]);
      var d := FiledAll(c, before, bodies[..n]);
      FilingKeepsSound(cfg, past, d, ts, Some(agent), mandateHash, events[n], bodies[n], FiledAll(c, entries, bodies));
    }
  }

  lemma GatedAdds(cfg: Config, past: seq<LedgerEntry>, c: Core, d: Core, agent: AgentId, tool: ToolId,
                  consequence: Consequence, checks: GateChecks, artifact: Artifact, already: seq<LedgerEntry>)
    requires agent in cfg.mandates && Sound(cfg, past, c) && Adds(cfg, past, c, d, already)
    ensures var (c', o) := Gated(cfg, d, agent, tool, consequence, checks, artifact, already);
            var failures := Evaluate(consequence, artifact, checks, None);
            && Adds(cfg, past, c, c', o.ledgered)
            && EventsOf(o.ledgered) == EventsOf(already) + GateEvents(consequence, failures, None)
            && o.gate.Some? && o.gate.value.failures == failures && o.gate.value.accepted == (failures == [])
            && o.decision == (if failures == [] then Executed else Refused) && o.refusal == None
            && o.result == (if failures == [] then Some(artifact) else None)
            && d.events <= c'.events
  {
    hide Written, Evaluate, GateEvents, Sound, FiledAll;
    var next := d.(ticks := d.ticks + 1);
    TickAdds(cfg, past, d, next.ticks);
    var failures := Evaluate(consequence, artifact, checks, None);
    var events := GateEvents(consequence, failures, None);
    var ts, mh := cfg.clock(d.ticks), BindingHash(cfg, Some(agent));
    GateEntriesKeepSound(cfg, past, next, ts, agent, mh, consequence, failures, events);
    var entries := GateEntries(cfg.codec, next.chain, ts, Some(agent), mh, consequence, failures, events);
    AddsTrans(cfg, past, c, d, FiledAll(next, entries, GatePayloads(consequence, failures, events)), already, entries);
    assert EventsOf(entries) == events;
  }

  // Everything a permitted call leaves behind.
  ghost predicate ExecutionTrace(cfg: Config, agent: AgentId, consequence: Consequence, checks: GateChecks,
                                 answer: HandlerAnswer, o: DispatchOutcome)
    requires agent in cfg.mandates
  {
    var schemaFits := answer.Returned? && IsInstance(answer.artifact, cfg.mandates[agent].outputSchema);
    if answer.HandlerRaised? then
      o.decision == Failed && o.gate == None && EventsOf(o.ledgered) == [ToolCalled, ToolResult]
    else if !schemaFits then
      o.decision == Failed && o.gate == None
      && EventsOf(o.ledgered) == [ToolCalled, ToolResult, VerificationFail, GateRejection]
    else
      var failures := Evaluate(consequence, answer.artifact, checks, None);
      && o.gate.Some? && o.gate.value.failures == failures && (o.gate.value.accepted <==> failures == [])
      && o.decision == (if failures == [] then Executed else Refused)
      && o.result == (if failures == [] then Some(answer.artifact) else None)
      && EventsOf(o.ledgered) == [ToolCalled, ToolResult] + GateEvents(consequence, failures, None)
  }

  lemma ExecuteAdds(cfg: Config, past: seq<LedgerEntry>, c: Core, agent: AgentId, tool: ToolId, consequence: Consequence,
                    granted: set<DataScope>, checks: GateChecks, answer: HandlerAnswer)
    requires agent in cfg.mandates && Sound(cfg, past, c)
    ensures var (c', o) := Execute(cfg, c, agent, tool, consequence, granted, checks, answer);
            && Adds(cfg, past, c, c', o.ledgered)
            && ExecutionTrace(cfg, agent, consequence, checks, answer, o)
            && o.refusal == None && (o.decision != Executed ==> o.result == None)
            && Note(cfg, c, ToolCalled, Some(agent), CalledPayload(tool, consequence, granted)).events <= c'.events
  {
    hide NewEntry, Gated;
    var body0 := CalledPayload(tool, consequence, granted);
    var body1 := ResultPayload(tool, answer.Returned?);
    var called := Note(cfg, c, ToolCalled, Some(agent), body0);
    var ran := Note(cfg, called, ToolResult, Some(agent), body1);
    var e0, e1 := NewEntry(cfg, c, ToolCalled, Some(agent), body0), NewEntry(cfg, called, ToolResult, Some(agent), body1);
    NoteAdds(cfg, past, c, ToolCalled, agent, body0);
    NoteAdds(cfg, past, called, ToolResult, agent, body1);
    AddsTrans(cfg, past, c, called, ran, [e0], [e1]);
    assert [e0] + [e1] == [e0, e1];
    assert EventsOf([e0, e1]) == [ToolCalled, ToolResult];
    if answer.Returned? {
      if IsInstance(answer.artifact, cfg.mandates[agent].outputSchema) {
        GatedAdds(cfg, past, c, ran, agent, tool, consequence, checks, answer.artifact, [e0, e1]);
      } else {
        WrongSchemaAdds(cfg, past, c, ran, agent, tool, [e0, e1]);
      }
    }
  }

  lemma WrongSchemaAdds(cfg: Config, past: seq<LedgerEntry>, c: Core, d: Core, agent: AgentId, tool: ToolId,
                        already: seq<LedgerEntry>)
    requires agent in cfg.mandates && Sound(cfg, past, c) && Adds(cfg, past, c, d, already)
    ensures var (c', o) := WrongSchema(cfg, d, agent, tool, already);
            && Adds(cfg, past, c, c', o.ledgered)
            && EventsOf(o.ledgered) == EventsOf(already) + [VerificationFail, GateRejection]
            && d.events <= c'.events
  {
    hide NewEntry;
    var body := SchemaPayload(tool);
    var failed := Note(cfg, d, VerificationFail, Some(agent), body);
    var rejected := Note(cfg, failed, GateRejection, Some(agent), body);
    var e2, e3 := NewEntry(cfg, d, VerificationFail, Some(agent), body), NewEntry(cfg, failed, GateRejection, Some(agent), body);
    NoteAdds(cfg, past, d, VerificationFail, agent, body);
    NoteAdds(cfg, past, failed, GateRejection, agent, body);
    AddsTrans(cfg, past, d, failed, rejected, [e2], [e3]);
    assert [e2] + [e3] == [e2, e3];
    AddsTrans(cfg, past, c, d, rejected, already, [e2, e3]);
    assert EventsOf([e2, e3]) == [VerificationFail, GateRejection];
  }

  // ------------------------------------------------------------------
  // The main results
  // ------------------------------------------------------------------

  /** When the pipeline lets a handler run: the tool exists and is this agent's, every scope it
      asked for is one its mandate grants, the scopes it needs are among them, and the table's
      consequence is below ENFORCE and the ceiling admits it. */
  ghost predicate Permitted(m: Mandate, p: ToolProposal, table: map<ToolId, ToolEntry>) {
    var tool := ResolveTool(p.toolName);
    && tool.Some? && tool.value in table && tool.value in m.allowedTools
    && NamesAllowed(p.scopeNames, m)
    && table[tool.value].requiredScopes <= Requested(p.scopeNames)
    && table[tool.value].consequence != Enforce
    && Admits(m.ceiling, table[tool.value].consequence)
    && table[tool.value].hasHandler
  }

  lemma RequestedWithin(names: seq<string>, m: Mandate)
    requires NamesAllowed(names, m)
    ensures Requested(names) <= m.dataScopes
  {
    forall d | d in Requested(names) ensures d in m.dataScopes {
      var n :| n in names && ResolveScope(n).Some? && ResolveScope(n).value == d;
      var i :| 0 <= i < |names| && names[i] == n;
      assert NameAllowed(names[i], m);
    }
  }

  // The answers validate can still give once the guard has granted the scopes.
  lemma ValidateAfterGuard(p: ToolProposal, m: Mandate, tool: ToolId, consequence: Consequence)
    requires NamesAllowed(p.scopeNames, m) && p.agent == m.agent
    ensures var v := Validate(ProposedAction(p.agent, tool, consequence, Requested(p.scopeNames)), m);
            && v != Refuse(AgentMismatch) && v != Refuse(ScopeNotAllowed)
            && (v == Allow <==> consequence != Enforce && tool in m.allowedTools && Admits(m.ceiling, consequence))
  {
    RequestedWithin(p.scopeNames, m);
    RankOrders(m.ceiling, consequence);
    assert Requested(p.scopeNames) - m.dataScopes == {};
  }

  // Of the checks after the scopes, the first that fails.
  ghost function AuthoriseRefusal(m: Mandate, p: ToolProposal, tool: ToolId, entry: ToolEntry): Option<RefusalCode> {
    if !(entry.requiredScopes <= Requested(p.scopeNames)) then Some(ScopeNotAllowed)
    else if entry.consequence == Enforce then Some(EnforceIsHumanOnly)
    else if tool !in m.allowedTools then Some(ToolNotAllowed)
    else if !Admits(m.ceiling, entry.consequence) then Some(ConsequenceExceedsCeiling)
    else if !entry.hasHandler then Some(ToolHandlerNotInBuild)
    else None
  }

  /** The code a refused proposal carries, decided by names, table and mandate alone. */
  ghost function RefusalFor(m: Mandate, p: ToolProposal, table: map<ToolId, ToolEntry>): Option<RefusalCode> {
    var tool := ResolveTool(p.toolName);
    if tool == None || tool.value !in table then Some(ToolNotAllowed)
    else if !NamesAllowed(p.scopeNames, m) then Some(ScopeNotAllowed)
    else AuthoriseRefusal(m, p, tool.value, table[tool.value])
  }

  // What a refused proposal leaves on the chain.
  ghost function RefusalEvents(m: Mandate, p: ToolProposal, table: map<ToolId, ToolEntry>): seq<EventType> {
    var tool := ResolveTool(p.toolName);
    if RefusalFor(m, p, table) == Some(ToolHandlerNotInBuild) then [GateRejection]
    else if tool.Some? && tool.value in table && !NamesAllowed(p.scopeNames, m)
    then [MandateViolationAttempt, MandateViolationAttempt]
    else [MandateViolationAttempt]
  }

  lemma TickAdds(cfg: Config, past: seq<LedgerEntry>, c: Core, ticks: nat)
    requires Sound(cfg, past, c)
    ensures Adds(cfg, past, c, c.(ticks := ticks), [])
  {
    assert c.chain + [] == c.chain;
  }

  lemma AuthoriseTrace(cfg: Config, past: seq<LedgerEntry>, c: Core, d: Core, p: ToolProposal, tool: ToolId,
                       entry: ToolEntry, checks: GateChecks, answer: HandlerAnswer)
    requires Loaded(cfg) && p.agent in cfg.mandates && NamesAllowed(p.scopeNames, cfg.mandates[p.agent])
    requires Sound(cfg, past, c) && d == c.(ticks := d.ticks)
    ensures var (c', o) := Authorise(cfg, d, p, tool, entry, Requested(p.scopeNames), checks, answer);
            var refusal := AuthoriseRefusal(cfg.mandates[p.agent], p, tool, entry);
            && Adds(cfg, past, c, c', o.ledgered) && WellFormed(o)
            && o.refusal == refusal
            && (refusal.Some? ==>
                  o.decision == Refused && o.gate == None
                  && EventsOf(o.ledgered)
                     == [if refusal == Some(ToolHandlerNotInBuild) then GateRejection else MandateViolationAttempt])
            && (refusal == None ==>
                  && ExecutionTrace(cfg, p.agent, entry.consequence, checks, answer, o)
                  && |c'.events| > |c.events|
                  && c'.events[|c.events|].payload == CalledPayload(tool, entry.consequence, Requested(p.scopeNames)))
  {
    hide RefuseWith, Execute, Sound, NewEntry, Validate, Requested;
    var m := cfg.mandates[p.agent];
    var granted := Requested(p.scopeNames);
    TickAdds(cfg, past, c, d.ticks);
    ValidateAfterGuard(p, m, tool, entry.consequence);
    ValidateCodes(ProposedAction(p.agent, tool, entry.consequence, granted), m);
    assert [] + [MandateViolationAttempt] == [MandateViolationAttempt] && [] + [GateRejection] == [GateRejection];
    SubsetMeansNothingMissing(entry.requiredScopes, granted);
    var refusal := AuthoriseRefusal(m, p, tool, entry);
    if refusal.Some? {
      RefuseAdds(cfg, past, c, d, p, refusal.value,
                 if refusal.value == ToolHandlerNotInBuild then GateRejection else MandateViolationAttempt, Some(tool), []);
    } else {
      ExecuteAdds(cfg, past, d, p.agent, tool, entry.consequence, granted, checks, answer);
    }
  }

  // The code of each refusal validate can give.
  lemma ValidateCodes(action: ProposedAction, m: Mandate)
    ensures Validate(action, m) == Refuse(EnforceIsHumanOnly) <==> action.consequence == Enforce
    ensures action.consequence != Enforce && action.agent == m.agent ==>
              (Validate(action, m) == Refuse(ToolNotAllowed) <==> action.tool !in m.allowedTools)
    ensures Validate(action, m) == Refuse(ConsequenceExceedsCeiling) ==> !Admits(m.ceiling, action.consequence)
    ensures Validate(action, m) != Refuse(ToolHandlerNotInBuild)
  {
    RankOrders(m.ceiling, action.consequence);
  }

  /** One dispatch, completely: what it adds is accounted for and is what it reports; the refusal,
      if any, is the one the mandate calls for; otherwise the tool ran with exactly the requested
      scopes and left the trace its answer and its gate call for. */
  lemma DispatchTrace(cfg: Config, past: seq<LedgerEntry>, c: Core, p: ToolProposal, table: map<ToolId, ToolEntry>,
                      checks: GateChecks, answer: HandlerAnswer)
    requires Loaded(cfg) && p.agent in cfg.mandates && Sound(cfg, past, c)
    ensures var (c', o) := Dispatch(cfg, c, p, table, checks, answer);
            var m := cfg.mandates[p.agent];
            && Adds(cfg, past, c, c', o.ledgered) && WellFormed(o)
            && o.refusal == RefusalFor(m, p, table)
            && (o.refusal.Some? ==>
                  o.decision == Refused && o.gate == None && EventsOf(o.ledgered) == RefusalEvents(m, p, table))
            && (o.refusal == None ==>
                  var entry := table[ResolveTool(p.toolName).value];
                  && ExecutionTrace(cfg, p.agent, entry.consequence, checks, answer, o)
                  && |c'.events| > |c.events|
                  && c'.events[|c.events|].payload
                     == CalledPayload(ResolveTool(p.toolName).value, entry.consequence, Requested(p.scopeNames)))
  {
    hide RequestScopes, RefuseWith, Authorise, Sound, Requested, ResolveTool;
    var m := cfg.mandates[p.agent];
    var tool := ResolveTool(p.toolName);
    TickAdds(cfg, past, c, c.ticks);
    assert EventsOf([]) + [MandateViolationAttempt] == [MandateViolationAttempt];
    if tool == None || tool.value !in table {
      RefuseAdds(cfg, past, c, c, p, ToolNotAllowed, MandateViolationAttempt, tool, []);
    } else {
      ScopesAllOrNothing(cfg, past, c, p.agent, p.scopeNames, {});
      var (asked, scopes) := RequestScopes(cfg, c, p.agent, p.scopeNames, {});
      if !NamesAllowed(p.scopeNames, m) {
        RefuseAdds(cfg, past, c, asked, p, ScopeNotAllowed, MandateViolationAttempt, tool, [scopes.entry]);
        assert EventsOf([scopes.entry]) == [MandateViolationAttempt];
      } else {
        assert {} + Requested(p.scopeNames) == Requested(p.scopeNames);
        AuthoriseTrace(cfg, past, c, asked, p, tool.value, table[tool.value], checks, answer);
      }
    }
  }

  lemma PermittedMeansNoRefusal(m: Mandate, p: ToolProposal, table: map<ToolId, ToolEntry>)
    ensures Permitted(m, p, table) <==> RefusalFor(m, p, table) == None
  {
  }

  // A refusal is decided before the handler could answer.
  lemma AnswerIgnored(cfg: Config, past: seq<LedgerEntry>, c: Core, p: ToolProposal, table: map<ToolId, ToolEntry>,
                      checks: GateChecks, answer: HandlerAnswer, other: HandlerAnswer)
    requires Loaded(cfg) && p.agent in cfg.mandates && Sound(cfg, past, c)
    requires RefusalFor(cfg.mandates[p.agent], p, table).Some?
    ensures Dispatch(cfg, c, p, table, checks, answer) == Dispatch(cfg, c, p, table, checks, other)
  {
    hide RequestScopes, RefuseWith, Execute, Sound, Requested, ResolveTool, Validate;
    var m := cfg.mandates[p.agent];
    var tool := ResolveTool(p.toolName);
    ScopesAllOrNothing(cfg, past, c, p.agent, p.scopeNames, {});
    if tool.Some? && tool.value in table && NamesAllowed(p.scopeNames, m) {
      var entry := table[tool.value];
      var granted := Requested(p.scopeNames);
      assert {} + granted == granted;
      ValidateAfterGuard(p, m, tool.value, entry.consequence);
      SubsetMeansNothingMissing(entry.requiredScopes, granted);
    }
  }

  lemma SubsetMeansNothingMissing(a: set<DataScope>, b: set<DataScope>)
    ensures a <= b <==> a - b == {}
  {
    if a - b == {} {
      forall d | d in a ensures d in b {
        assert d !in a - b;
      }
    }
  }

  /** The traces a dispatch can leave, and what each one means. */
  lemma DispatchGrammar(cfg: Config, past: seq<LedgerEntry>, c: Core, p: ToolProposal, table: map<ToolId, ToolEntry>,
                        checks: GateChecks, answer: HandlerAnswer)
    requires Loaded(cfg) && p.agent in cfg.mandates && Sound(cfg, past, c)
    ensures var (c', o) := Dispatch(cfg, c, p, table, checks, answer);
            var m := cfg.mandates[p.agent];
            var events := EventsOf(o.ledgered);
            var tool := ResolveTool(p.toolName);
            && (o.decision == Executed <==> events == [ToolCalled, ToolResult, VerificationPass])
            && (o.decision == Refused ==>
                  events != [] && events[|events| - 1] in {MandateViolationAttempt, GateRejection})
            && (o.decision == Failed ==> |events| >= 2 && events[0] == ToolCalled && events[1] == ToolResult)
            && (events == [MandateViolationAttempt, MandateViolationAttempt]
                <==> tool.Some? && tool.value in table && !NamesAllowed(p.scopeNames, m))
            && (events == [GateRejection] <==> o.refusal == Some(ToolHandlerNotInBuild))
            && (ToolCalled in events <==> Permitted(m, p, table))
            && HumanDecision !in events
  {
    hide RequestScopes, RefuseWith, Authorise, Execute, Sound, Requested, ResolveTool, Adds, EventsOf, Dispatch;
    var m := cfg.mandates[p.agent];
    DispatchTrace(cfg, past, c, p, table, checks, answer);
    PermittedMeansNoRefusal(m, p, table);
    var (c', o) := Dispatch(cfg, c, p, table, checks, answer);
    if o.refusal == None {
      var entry := table[ResolveTool(p.toolName).value];
      assert EventsOf(o.ledgered)[0] == ToolCalled;
      if answer.Returned? && IsInstance(answer.artifact, m.outputSchema) {
        GateEventsWithoutSignature(entry.consequence, Evaluate(entry.consequence, answer.artifact, checks, None));
      }
    }
  }

  lemma GateEventsWithoutSignature(consequence: Consequence, failures: seq<GateFailure>)
    requires consequence != Enforce
    ensures GateEvents(consequence, failures, None)
            == if failures == [] then [VerificationPass] else [VerificationFail, GateRejection]
  {
  }

  /** Complete mediation: a tool is called exactly when the proposal is permitted. Until it is,
      what the handler would have answered cannot make any difference. */
  lemma CompleteMediation(cfg: Config, past: seq<LedgerEntry>, c: Core, p: ToolProposal, table: map<ToolId, ToolEntry>,
                          checks: GateChecks, answer: HandlerAnswer, other: HandlerAnswer)
    requires Loaded(cfg) && p.agent in cfg.mandates && Sound(cfg, past, c)
    ensures var m := cfg.mandates[p.agent];
            var (c', o) := Dispatch(cfg, c, p, table, checks, answer);
            && (ToolCalled in EventsOf(o.ledgered) <==> Permitted(m, p, table))
            && (Permitted(m, p, table) ==> Requested(p.scopeNames) <= m.dataScopes)
            && (!Permitted(m, p, table) ==> Dispatch(cfg, c, p, table, checks, other) == (c', o))
            && o.refusal != Some(AgentMismatch)
  {
    hide RequestScopes, RefuseWith, Authorise, Execute, Sound, Requested, ResolveTool, Adds, EventsOf, Dispatch;
    var m := cfg.mandates[p.agent];
    DispatchTrace(cfg, past, c, p, table, checks, answer);
    DispatchGrammar(cfg, past, c, p, table, checks, answer);
    PermittedMeansNoRefusal(m, p, table);
    if RefusalFor(m, p, table).Some? {
      AnswerIgnored(cfg, past, c, p, table, checks, answer, other);
    } else {
      RequestedWithin(p.scopeNames, m);
    }
  }

  /** What it takes for a dispatch to hand out an artifact: a permitted proposal, a handler that returns one of
      the class the mandate names, and a gate that finds nothing wrong with it. The artifact handed out is then
      the handler's own, and nothing is handed out otherwise. */
  lemma ExecutedIff(cfg: Config, past: seq<LedgerEntry>, c: Core, p: ToolProposal, table: map<ToolId, ToolEntry>,
                    checks: GateChecks, answer: HandlerAnswer)
    requires Loaded(cfg) && p.agent in cfg.mandates && Sound(cfg, past, c)
    ensures var o := Dispatch(cfg, c, p, table, checks, answer).1;
            var m := cfg.mandates[p.agent];
            && (o.decision == Executed <==>
                  && Permitted(m, p, table) && answer.Returned? && IsInstance(answer.artifact, m.outputSchema)
                  && Evaluate(table[ResolveTool(p.toolName).value].consequence, answer.artifact, checks, None) == [])
            && o.result == (if o.decision == Executed then Some(answer.artifact) else None)
  {
    hide Sound, Requested, ResolveTool, Adds, EventsOf, Dispatch, Permitted, RefusalFor, Evaluate;
    DispatchTrace(cfg, past, c, p, table, checks, answer);
    PermittedMeansNoRefusal(cfg.mandates[p.agent], p, table);
  }

  /** An outcome names the tool the proposal named, if that is a tool at all, however it ends. */
  lemma OutcomeNamesItsTool(cfg: Config, c: Core, p: ToolProposal, table: map<ToolId, ToolEntry>, checks: GateChecks,
                            answer: HandlerAnswer)
    requires p.agent in cfg.mandates
    ensures Dispatch(cfg, c, p, table, checks, answer).1.tool == ResolveTool(p.toolName)
  {
    hide RequestScopes, ResolveTool, Validate, NewEntry, Note, GateFor, FiledAll;
  }
}
