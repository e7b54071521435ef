/** What every operation of a session writes: the entries in order, each with its body, the agent it is
    written for, the mandate digest that binds it, and the clock reading that stamps it. */
module Records {
  import opened Prelude
  import opened Canonical
  import opened Mandates
  import opened Ledgers
  import opened Artifacts
  import opened Gates
  import opened Sessions
  import opened Adapters
  import opened Dispatching
  import opened DispatchProofs
  import opened Runs

  /** An entry's type and the body behind its digest. */
  type Record = (EventType, Payload)

  /** Written for this agent and bound to that agent's own mandate; without an agent, to the whole fleet's. */
  ghost predicate Bound(cfg: Config, e: LedgerEntry, agent: Option<AgentId>) {
    && e.agent == agent
    && (agent == None ==> e.mandateHash == cfg.mandateSetHash)
    && (agent.Some? ==> agent.value in cfg.mandates && e.mandateHash == cfg.mandateHash(cfg.mandates[agent.value]))
  }

  /** The new entries are stamped by clock readings of this stretch, in the order they were read. */
  ghost predicate StampedBy(cfg: Config, c: Core, c': Core, readings: seq<nat>) {
    && |c.chain| + |readings| == |c'.chain|
    && (forall i | 0 <= i < |readings| ::
          c.ticks <= readings[i] < c'.ticks && c'.chain[|c.chain| + i].timestamp == cfg.clock(readings[i]))
    && (forall i, j | 0 <= i < j < |readings| :: readings[i] <= readings[j])
  }

  // The session holds the record at one place and its entry is at another place of the chain.
  ghost predicate Stands(cfg: Config, c: Core, at: nat, inChain: nat, agent: Option<AgentId>, record: Record) {
    && at < |c.events| && inChain < |c.chain| && c.events[at].entry == c.chain[inChain]
    && (c.chain[inChain].event, c.events[at].payload) == record && Bound(cfg, c.chain[inChain], agent)
  }

  /** From c to c', exactly these records were added for one agent, to the chain and to the session alike. */
  ghost predicate Writes(cfg: Config, c: Core, c': Core, agent: Option<AgentId>, records: seq<Record>) {
    && c.chain <= c'.chain && c.events <= c'.events && c.ticks <= c'.ticks
    && |c'.chain| == |c.chain| + |records| && |c'.events| == |c.events| + |records|
    && (forall i | 0 <= i < |records| :: Stands(cfg, c', |c.events| + i, |c.chain| + i, agent, records[i]))
    && exists readings :: StampedBy(cfg, c, c', readings)
  }

  lemma WritesNothing(cfg: Config, c: Core, c': Core, agent: Option<AgentId>)
    requires c'.chain == c.chain && c'.events == c.events && c.ticks <= c'.ticks
    ensures Writes(cfg, c, c', agent, [])
  {
    assert StampedBy(cfg, c, c', []);
  }

  lemma WritesTrans(cfg: Config, c: Core, d: Core, e: Core, agent: Option<AgentId>, xs: seq<Record>, ys: seq<Record>)
    requires Writes(cfg, c, d, agent, xs) && Writes(cfg, d, e, agent, ys)
    ensures Writes(cfg, c, e, agent, xs + ys)
  {
    var early, late :| StampedBy(cfg, c, d, early) && StampedBy(cfg, d, e, late);
    StampsJoin(cfg, c, d, e, early, late);
    hide StampedBy, Stands;
    forall i | 0 <= i < |xs + ys| ensures Stands(cfg, e, |c.events| + i, |c.chain| + i, agent, (xs + ys)[i]) {
      if i < |xs| {
        StillStands(cfg, d, e, |c.events| + i, |c.chain| + i, agent, xs[i]);
      } else {
        var k := i - |xs|;
        assert (xs + ys)[i] == ys[k];
        assert |c.events| + i == |d.events| + k && |c.chain| + i == |d.chain| + k;
      }
    }
  }

  lemma StillStands(cfg: Config, d: Core, e: Core, at: nat, inChain: nat, agent: Option<AgentId>, record: Record)
    requires Stands(cfg, d, at, inChain, agent, record) && d.events <= e.events && d.chain <= e.chain
    ensures Stands(cfg, e, at, inChain, agent, record)
  {
  }

  lemma StampsJoin(cfg: Config, c: Core, d: Core, e: Core, early: seq<nat>, late: seq<nat>)
    requires c.chain <= d.chain <= e.chain && c.ticks <= d.ticks <= e.ticks
    requires StampedBy(cfg, c, d, early) && StampedBy(cfg, d, e, late)
    ensures StampedBy(cfg, c, e, early + late)
  {
    var all := early + late;
    forall i | 0 <= i < |all|
      ensures c.ticks <= all[i] < e.ticks && e.chain[|c.chain| + i].timestamp == cfg.clock(all[i])
    {
      if i < |early| {
        assert e.chain[|c.chain| + i] == d.chain[|c.chain| + i];
      } else {
        assert all[i] == late[i - |early|];
      }
    }
  }

  // ------------------------------------------------------------------
  // Single operations
  // ------------------------------------------------------------------

  /** append_event: one record, stamped by exactly the reading it takes; the next reading is the next one. */
  lemma NoteWrites(cfg: Config, c: Core, event: EventType, agent: Option<AgentId>, p: Payload)
    requires agent.Some? ==> agent.value in cfg.mandates
    ensures var c' := Note(cfg, c, event, agent, p);
            && Writes(cfg, c, c', agent, [(event, p)])
            && c'.chain == c.chain + [NewEntry(cfg, c, event, agent, p)]
            && c'.chain[|c.chain|].timestamp == cfg.clock(c.ticks) && c'.ticks == c.ticks + 1
  {
    WrittenIsFaithful(cfg.codec, c.chain, cfg.clock(c.ticks), agent, BindingHash(cfg, agent), event, p);
    hide Written;
    var c', e := Note(cfg, c, event, agent, p), NewEntry(cfg, c, event, agent, p);
    assert c'.events[|c.events|] == RecordedEvent(e, p) && c'.chain[|c.chain|] == e;
    assert Bound(cfg, e, agent);
    assert StampedBy(cfg, c, c', [c.ticks]);
  }

  lemma TwoNotesWrite(cfg: Config, c: Core, agent: AgentId, x: EventType, p: Payload, y: EventType, q: Payload)
    requires agent in cfg.mandates
    ensures Writes(cfg, c, Note(cfg, Note(cfg, c, x, Some(agent), p), y, Some(agent), q), Some(agent), [(x, p), (y, q)])
  {
    hide Note, Writes;
    var d := Note(cfg, c, x, Some(agent), p);
    NoteWrites(cfg, c, x, Some(agent), p);
    NoteWrites(cfg, d, y, Some(agent), q);
    WritesTrans(cfg, c, d, Note(cfg, d, y, Some(agent), q), Some(agent), [(x, p)], [(y, q)]);
    assert [(x, p)] + [(y, q)] == [(x, p), (y, q)];
  }

  /** Every entry of one gate run is stamped, bound and attributed alike. */
  lemma {:induction false} GateEntriesAlike(codec: Codec, table: seq<LedgerEntry>, ts: Text, agent: Option<AgentId>,
                                            mandateHash: Hex, consequence: Consequence, failures: seq<GateFailure>,
                                            events: seq<EventType>)
    ensures forall e | e in GateEntries(codec, table, ts, agent, mandateHash, consequence, failures, events) ::
              e.timestamp == ts && e.agent == agent && e.mandateHash == mandateHash
    decreases |events|
  {
    if events != [] {
      var n := |events| - 1;
      var before := GateEntries(codec, table, ts, agent, mandateHash, consequence, failures, events[..n]);
      GateEntriesAlike(codec, table, ts, agent, mandateHash, consequence, failures, events[..n]);
      WrittenIsFaithful(codec, table + before, ts, agent, mandateHash, events[n],
                        GatePayload(consequence, failures, events[n]));
    }
  }

  // What a gate run without a signature records.
  ghost function GateRecords(consequence: Consequence, failures: seq<GateFailure>): seq<Record> {
    if failures != []
    then [(VerificationFail, GatePayload(consequence, failures, VerificationFail)),
          (GateRejection, GatePayload(consequence, failures, GateRejection))]
    else [(VerificationPass, GatePayload(consequence, failures, VerificationPass))]
  }

  lemma GatedWrites(cfg: Config, c: Core, agent: AgentId, tool: ToolId, consequence: Consequence, checks: GateChecks,
                    artifact: Artifact, already: seq<LedgerEntry>)
    requires agent in cfg.mandates && consequence != Enforce
    ensures Writes(cfg, c, Gated(cfg, c, agent, tool, consequence, checks, artifact, already).0, Some(agent),
                   GateRecords(consequence, Evaluate(consequence, artifact, checks, None)))
  {
    hide Evaluate, Written, FiledAll, Writes;
    var c' := Gated(cfg, c, agent, tool, consequence, checks, artifact, already).0;
    var next := c.(ticks := c.ticks + 1);
    var failures := Evaluate(consequence, artifact, checks, None);
    var g := GateFor(cfg, c, agent, consequence, checks, artifact);
    var events := GateEvents(consequence, failures, None);
    GateEventsWithoutSignature(consequence, failures);
    GateEntriesAlike(cfg.codec, c.chain, cfg.clock(c.ticks), Some(agent), BindingHash(cfg, Some(agent)), consequence,
                     failures, events);
    FiledAllAppends(next, g.ledgered, g.payloads);
    FiledWrites(cfg, c, next, c', Some(agent), g.ledgered, g.payloads, GateRecords(consequence, failures));
  }

  // Entries stamped, bound and attributed alike, filed with their bodies.
  lemma FiledWrites(cfg: Config, c: Core, next: Core, c': Core, agent: Option<AgentId>, entries: seq<LedgerEntry>,
                    payloads: seq<Payload>, records: seq<Record>)
    requires next == c.(ticks := c.ticks + 1) && |entries| == |payloads| == |records|
    requires c'.chain == c.chain + entries && c.events <= c'.events && |c'.events| == |c.events| + |entries|
    requires forall i | 0 <= i < |entries| :: c'.events[|c.events| + i] == RecordedEvent(entries[i], payloads[i])
    requires c'.ticks == next.ticks
    requires forall e | e in entries :: Bound(cfg, e, agent) && e.timestamp == cfg.clock(c.ticks)
    requires forall i | 0 <= i < |entries| :: (entries[i].event, payloads[i]) == records[i]
    ensures Writes(cfg, c, c', agent, records)
  {
    hide Bound;
    assert forall i | 0 <= i < |entries| :: c'.chain[|c.chain| + i] == entries[i] && entries[i] in entries;
    assert StampedBy(cfg, c, c', seq(|entries|, _ => c.ticks));
    forall i: nat | i < |records| ensures Stands(cfg, c', |c.events| + i, |c.chain| + i, agent, records[i]) {
      assert entries[i] in entries;
    }
  }

  // ------------------------------------------------------------------
  // A dispatch
  // ------------------------------------------------------------------

  // The first requested name the mandate does not grant.
  function FirstDenied(names: seq<string>, m: Mandate): string
    requires !NamesAllowed(names, m)
  {
    if NameAllowed(names[0], m) then
      assert !NamesAllowed(names[1..], m) by {
        assert names == [names[0]] + names[1..];
      }
      FirstDenied(names[1..], m)
    else names[0]
  }

  lemma AskOneWrites(cfg: Config, c: Core, agent: AgentId, name: string)
    requires agent in cfg.mandates
    ensures var (c', g) := AskOne(cfg, c, agent, name);
            var allowed := NameAllowed(name, cfg.mandates[agent]);
            && (g.ScopeGranted? <==> allowed)
            && Writes(cfg, c, c', Some(agent),
                      if allowed then [] else [(MandateViolationAttempt, ScopePayload(name, ScopeNotAllowed, agent))])
  {
    var (c', g) := AskOne(cfg, c, agent, name);
    hide Written;
    if NameAllowed(name, cfg.mandates[agent]) {
      WritesNothing(cfg, c, c', Some(agent));
    } else {
      WrittenIsFaithful(cfg.codec, c.chain, cfg.clock(c.ticks), Some(agent), BindingHash(cfg, Some(agent)),
                        MandateViolationAttempt, g.payload);
      assert StampedBy(cfg, c, c', [c.ticks]);
    }
  }

  lemma {:induction false} ScopesWrite(cfg: Config, c: Core, agent: AgentId, names: seq<string>, granted: set<DataScope>)
    requires agent in cfg.mandates
    ensures var m := cfg.mandates[agent];
            var (c', answer) := RequestScopes(cfg, c, agent, names, granted);
            && (answer.AllGranted? <==> NamesAllowed(names, m))
            && Writes(cfg, c, c', Some(agent),
                      if NamesAllowed(names, m) then []
                      else [(MandateViolationAttempt, ScopePayload(FirstDenied(names, m), ScopeNotAllowed, agent))])
    decreases |names|
  {
    hide AskOne, Writes, NameAllowed;
    var m := cfg.mandates[agent];
    if names == [] {
      WritesNothing(cfg, c, c, Some(agent));
    } else {
      AskOneWrites(cfg, c, agent, names[0]);
      var (next, g) := AskOne(cfg, c, agent, names[0]);
      assert NamesAllowed(names, m) <==> NameAllowed(names[0], m) && NamesAllowed(names[1..], m) by {
        assert names == [names[0]] + names[1..];
      }
      if NameAllowed(names[0], m) {
        ScopesWrite(cfg, next, agent, names[1..], granted + {g.scope});
        var later := if NamesAllowed(names, m) then []
                     else [(MandateViolationAttempt, ScopePayload(FirstDenied(names, m), ScopeNotAllowed, agent))];
        WritesTrans(cfg, c, next, RequestScopes(cfg, next, agent, names[1..], granted + {g.scope}).0, Some(agent), [], later);
        assert [] + later == later;
      }
    }
  }

  // What is recorded once the tool has been called.
  ghost function RunRecords(m: Mandate, tool: ToolId, consequence: Consequence, granted: set<DataScope>,
                            checks: GateChecks, answer: HandlerAnswer): seq<Record>
  {
    [(ToolCalled, CalledPayload(tool, consequence, granted)), (ToolResult, ResultPayload(tool, answer.Returned?))] +
    if answer.HandlerRaised? then []
    else if !IsInstance(answer.artifact, m.outputSchema)
    then [(VerificationFail, SchemaPayload(tool)), (GateRejection, SchemaPayload(tool))]
    else GateRecords(consequence, Evaluate(consequence, answer.artifact, checks, None))
  }

  /** Everything one dispatch records, decided by names, table, mandate, handler and gate alone. */
  ghost function DispatchRecords(m: Mandate, p: ToolProposal, table: map<ToolId, ToolEntry>, checks: GateChecks,
                                 answer: HandlerAnswer): seq<Record>
  {
    var tool := ResolveTool(p.toolName);
    var refusal := RefusalFor(m, p, table);
    if refusal == None then
      RunRecords(m, tool.value, table[tool.value].consequence, Requested(p.scopeNames), checks, answer)
    else
      (if tool.Some? && tool.value in table && !NamesAllowed(p.scopeNames, m)
       then [(MandateViolationAttempt, ScopePayload(FirstDenied(p.scopeNames, m), ScopeNotAllowed, p.agent))]
       else [])
      + [(if refusal == Some(ToolHandlerNotInBuild) then GateRejection else MandateViolationAttempt,
          RefusalPayload(p.agent, p.toolName, p.scopeNames, refusal.value))]
  }

  lemma ExecuteWrites(cfg: Config, c: Core, agent: AgentId, tool: ToolId, consequence: Consequence,
                      granted: set<DataScope>, checks: GateChecks, answer: HandlerAnswer)
    requires agent in cfg.mandates && consequence != Enforce
    ensures Writes(cfg, c, Execute(cfg, c, agent, tool, consequence, granted, checks, answer).0, Some(agent),
                   RunRecords(cfg.mandates[agent], tool, consequence, granted, checks, answer))
  {
    hide Note, NewEntry, Writes, Gated, Evaluate;
    var body0, body1 := CalledPayload(tool, consequence, granted), ResultPayload(tool, answer.Returned?);
    var called := Note(cfg, c, ToolCalled, Some(agent), body0);
    var ran := Note(cfg, called, ToolResult, Some(agent), body1);
    var ledgered := [NewEntry(cfg, c, ToolCalled, Some(agent), body0), NewEntry(cfg, called, ToolResult, Some(agent), body1)];
    TwoNotesWrite(cfg, c, agent, ToolCalled, body0, ToolResult, body1);
    var first := [(ToolCalled, body0), (ToolResult, body1)];
    if answer.HandlerRaised? {
      assert first + [] == first;
    } else if !IsInstance(answer.artifact, cfg.mandates[agent].outputSchema) {
      TwoNotesWrite(cfg, ran, agent, VerificationFail, SchemaPayload(tool), GateRejection, SchemaPayload(tool));
      WritesTrans(cfg, c, ran, WrongSchema(cfg, ran, agent, tool, ledgered).0, Some(agent), first,
                  [(VerificationFail, SchemaPayload(tool)), (GateRejection, SchemaPayload(tool))]);
    } else {
      GatedWrites(cfg, ran, agent, tool, consequence, checks, answer.artifact, ledgered);
      WritesTrans(cfg, c, ran, Gated(cfg, ran, agent, tool, consequence, checks, answer.artifact, ledgered).0, Some(agent),
                  first, GateRecords(consequence, Evaluate(consequence, answer.artifact, checks, None)));
    }
  }

  /** A dispatch records exactly that, all of it for the proposing agent and bound to its own mandate, what the
      scope guard and the gate write behind the session's back included. */
  lemma DispatchWrites(cfg: Config, past: seq<LedgerEntry>, c: Core, p: ToolProposal, table: map<ToolId, ToolEntry>,
                       checks: GateChecks, answer: HandlerAnswer)
    requires Loaded(cfg) && p.agent in cfg.mandates && Sound(cfg, past, c)
    ensures Writes(cfg, c, Dispatch(cfg, c, p, table, checks, answer).0, Some(p.agent),
                   DispatchRecords(cfg.mandates[p.agent], p, table, checks, answer))
  {
    hide RequestScopes, Execute, Sound, Requested, ResolveTool, Note, NewEntry, Writes, Validate, RunRecords;
    var m := cfg.mandates[p.agent];
    var tool := ResolveTool(p.toolName);
    var refusal := RefusalFor(m, p, table);
    if tool == None || tool.value !in table {
      var body := RefusalPayload(p.agent, p.toolName, p.scopeNames, ToolNotAllowed);
      NoteWrites(cfg, c, MandateViolationAttempt, Some(p.agent), body);
      assert [] + [(MandateViolationAttempt, body)] == [(MandateViolationAttempt, body)];
    } else {
      ScopesWrite(cfg, c, p.agent, p.scopeNames, {});
      ScopesAllOrNothing(cfg, past, c, p.agent, p.scopeNames, {});
      var (asked, scopes) := RequestScopes(cfg, c, p.agent, p.scopeNames, {});
      if !NamesAllowed(p.scopeNames, m) {
        var body := RefusalPayload(p.agent, p.toolName, p.scopeNames, ScopeNotAllowed);
        NoteWrites(cfg, asked, MandateViolationAttempt, Some(p.agent), body);
        WritesTrans(cfg, c, asked, Note(cfg, asked, MandateViolationAttempt, Some(p.agent), body), Some(p.agent),
                    [(MandateViolationAttempt, ScopePayload(FirstDenied(p.scopeNames, m), ScopeNotAllowed, p.agent))],
                    [(MandateViolationAttempt, body)]);
      } else {
        assert {} + Requested(p.scopeNames) == Requested(p.scopeNames);
        AuthoriseWrites(cfg, asked, p, tool.value, table[tool.value], checks, answer);
        var later := DispatchRecords(m, p, table, checks, answer);
        WritesTrans(cfg, c, asked,
                    Authorise(cfg, asked, p, tool.value, table[tool.value], Requested(p.scopeNames), checks, answer).0,
                    Some(p.agent), [], later);
        assert [] + later == later;
      }
    }
  }

  lemma AuthoriseWrites(cfg: Config, c: Core, p: ToolProposal, tool: ToolId, entry: ToolEntry, checks: GateChecks,
                        answer: HandlerAnswer)
    requires Loaded(cfg) && p.agent in cfg.mandates && NamesAllowed(p.scopeNames, cfg.mandates[p.agent])
    ensures var m := cfg.mandates[p.agent];
            var refusal := AuthoriseRefusal(m, p, tool, entry);
            Writes(cfg, c, Authorise(cfg, c, p, tool, entry, Requested(p.scopeNames), checks, answer).0, Some(p.agent),
                   if refusal == None
                   then RunRecords(m, tool, entry.consequence, Requested(p.scopeNames), checks, answer)
                   else [] + [(if refusal == Some(ToolHandlerNotInBuild) then GateRejection else MandateViolationAttempt,
                               RefusalPayload(p.agent, p.toolName, p.scopeNames, refusal.value))])
  {
    hide Execute, Requested, Note, NewEntry, Writes, Validate, RunRecords;
    var m := cfg.mandates[p.agent];
    var granted := Requested(p.scopeNames);
    ValidateAfterGuard(p, m, tool, entry.consequence);
    ValidateCodes(ProposedAction(p.agent, tool, entry.consequence, granted), m);
    SubsetMeansNothingMissing(entry.requiredScopes, granted);
    var refusal := AuthoriseRefusal(m, p, tool, entry);
    if refusal.Some? {
      var event := if refusal.value == ToolHandlerNotInBuild then GateRejection else MandateViolationAttempt;
      var body := RefusalPayload(p.agent, p.toolName, p.scopeNames, refusal.value);
      NoteWrites(cfg, c, event, Some(p.agent), body);
      assert [] + [(event, body)] == [(event, body)];
    } else {
      ExecuteWrites(cfg, c, p.agent, tool, entry.consequence, granted, checks, answer);
    }
  }

  // ------------------------------------------------------------------
  // A model call
  // ------------------------------------------------------------------

  /** What one model call records: nothing unless the prompt goes out, then the prompt with its estimate, and
      the adapter's failure if it failed. */
  function CallRecords(b: Budget, estimate: nat, clean: bool, maxAttempts: nat, answers: nat -> Attempt): seq<Record>
    requires maxAttempts >= 1
  {
    if CheckBudget(b, estimate, false).Some? || !clean then []
    else
      [(PromptSent, PromptPayload(estimate))] +
      if answers(StopsAt(answers, maxAttempts, 0)).Response? then [] else [(VerificationFail, AdapterErrorPayload)]
  }

  lemma CallWrites(cfg: Config, c: Core, agent: AgentId, estimate: nat, clean: bool, maxAttempts: nat,
                   answers: nat -> Attempt)
    requires maxAttempts >= 1 && c.budgets.Keys == cfg.mandates.Keys
    ensures Writes(cfg, c, Call(cfg, c, agent, estimate, clean, maxAttempts, answers).0, Some(agent),
                   if agent in c.budgets then CallRecords(c.budgets[agent], estimate, clean, maxAttempts, answers) else [])
  {
    if agent in c.budgets && CheckBudget(c.budgets[agent], estimate, false) == None && clean {
      hide Send, Writes, CheckBudget;
      SendWrites(cfg, c, agent, estimate, answers(StopsAt(answers, maxAttempts, 0)));
    } else {
      WritesNothing(cfg, c, c, Some(agent));
    }
  }

  lemma SendWrites(cfg: Config, c: Core, agent: AgentId, estimate: nat, last: Attempt)
    requires agent in c.budgets && agent in cfg.mandates
    ensures Writes(cfg, c, Send(cfg, c, agent, estimate, last).0, Some(agent),
                   [(PromptSent, PromptPayload(estimate))] +
                   if last.Response? then [] else [(VerificationFail, AdapterErrorPayload)])
  {
    hide NewEntry, Writes;
    var prompt := (PromptSent, PromptPayload(estimate));
    NoteWrites(cfg, c, PromptSent, Some(agent), PromptPayload(estimate));
    var sent := Note(cfg, c, PromptSent, Some(agent), PromptPayload(estimate));
    assert sent.budgets == c.budgets;
    hide Note;
    if last.Response? {
      SameWrites(cfg, c, sent, Booked(sent, agent, last.inputTokens + last.outputTokens), Some(agent), [prompt]);
      assert [prompt] + [] == [prompt];
    } else {
      TwoNotesWrite(cfg, c, agent, PromptSent, PromptPayload(estimate), VerificationFail, AdapterErrorPayload);
      assert [prompt] + [(VerificationFail, AdapterErrorPayload)] == [prompt, (VerificationFail, AdapterErrorPayload)];
    }
  }

  // Budgets and state are not records.
  lemma SameWrites(cfg: Config, c: Core, d: Core, e: Core, agent: Option<AgentId>, records: seq<Record>)
    requires Writes(cfg, c, d, agent, records) && e.chain == d.chain && e.events == d.events && e.ticks == d.ticks
    ensures Writes(cfg, c, e, agent, records)
  {
    var readings :| StampedBy(cfg, c, d, readings);
    assert StampedBy(cfg, c, e, readings);
  }

  // ------------------------------------------------------------------
  // Whole runs
  // ------------------------------------------------------------------

  /** Whom an action's entries are written for. */
  function WriterOf(a: Action): Option<AgentId> {
    match a
    case DoCall(agent, _, _, _, _) => Some(agent)
    case DoDispatch(p, _, _, _) => Some(p.agent)
    case DoNote(_, writer, _) => writer
    case _ => None
  }

  /** What an action records. */
  ghost function StepRecords(cfg: Config, c: Core, a: Action): seq<Record>
    requires c.budgets.Keys == cfg.mandates.Keys
  {
    match a
    case DoOpen => if CanTransition(c.state, Opened) then [(SessionOpen, OpenedPayload(cfg.mandateSetHash))] else []
    case DoCall(agent, tokens, clean, maxAttempts, answers) =>
      if maxAttempts > 0 && agent in c.budgets then CallRecords(c.budgets[agent], tokens, clean, maxAttempts, answers)
      else []
    case DoDispatch(p, table, checks, answer) =>
      if p.agent in cfg.mandates then DispatchRecords(cfg.mandates[p.agent], p, table, checks, answer) else []
    case DoNote(event, writer, payload) =>
      if writer.None? || writer.value in cfg.mandates then [(event, payload)] else []
    case DoClose(reason) =>
      if CanTransition(c.state, Closing) then [(SessionClose, ClosedPayload(reason, EventCounts(c.events), c.budgets))]
      else []
    case _ => []
  }

  /** Each action records exactly that, and all of it for one writer: a call's and a dispatch's entries for
      their agent, an opening's and a closing's for none. */
  lemma StepWrites(cfg: Config, past: seq<LedgerEntry>, c: Core, a: Action)
    requires Loaded(cfg) && Sound(cfg, past, c)
    ensures Writes(cfg, c, Step(cfg, c, a), WriterOf(a), StepRecords(cfg, c, a))
  {
    hide Dispatch, Call, Note, NewEntry, DispatchRecords, CallRecords;
    match a
    case DoOpen =>
      if CanTransition(c.state, Opened) {
        var entered := c.(state := Opened);
        NoteWrites(cfg, entered, SessionOpen, None, OpenedPayload(cfg.mandateSetHash));
        FromOther(cfg, entered, c, Step(cfg, c, a), None, StepRecords(cfg, c, a));
      } else {
        WritesNothing(cfg, c, c, None);
      }
    case DoBegin(agent, estimate) => WritesNothing(cfg, c, Step(cfg, c, a), None);
    case DoMove(target) => WritesNothing(cfg, c, Step(cfg, c, a), None);
    case DoCall(agent, tokens, clean, maxAttempts, answers) =>
      if maxAttempts > 0 {
        CallWrites(cfg, c, agent, tokens, clean, maxAttempts, answers);
      } else {
        WritesNothing(cfg, c, c, Some(agent));
      }
    case DoDispatch(p, table, checks, answer) =>
      if p.agent in cfg.mandates {
        DispatchWrites(cfg, past, c, p, table, checks, answer);
      } else {
        WritesNothing(cfg, c, c, Some(p.agent));
      }
    case DoNote(event, writer, payload) =>
      if writer.None? || writer.value in cfg.mandates {
        NoteWrites(cfg, c, event, writer, payload);
      } else {
        WritesNothing(cfg, c, c, writer);
      }
    case DoClose(reason) =>
      if CanTransition(c.state, Closing) {
        var closing := c.(state := Closing);
        var body := ClosedPayload(reason, EventCounts(c.events), c.budgets);
        NoteWrites(cfg, closing, SessionClose, None, body);
        SameWrites(cfg, closing, Note(cfg, closing, SessionClose, None, body), Step(cfg, c, a), None, [(SessionClose, body)]);
        FromOther(cfg, closing, c, Step(cfg, c, a), None, StepRecords(cfg, c, a));
      } else {
        WritesNothing(cfg, c, c, None);
      }
  }

  lemma FromOther(cfg: Config, c: Core, d: Core, e: Core, agent: Option<AgentId>, records: seq<Record>)
    requires Writes(cfg, c, e, agent, records) && c.chain == d.chain && c.events == d.events && c.ticks == d.ticks
    ensures Writes(cfg, d, e, agent, records)
  {
    var readings :| StampedBy(cfg, c, e, readings);
    assert StampedBy(cfg, d, e, readings);
  }

  /** Every new entry is bound to the mandate of the agent it names, or to the fleet if it names none, and the
      new entries are stamped in the order the clock was read. */
  ghost predicate AllBound(cfg: Config, c: Core, c': Core) {
    && c.chain <= c'.chain && c.ticks <= c'.ticks
    && (forall i | |c.chain| <= i < |c'.chain| :: Bound(cfg, c'.chain[i], c'.chain[i].agent))
    && exists readings :: StampedBy(cfg, c, c', readings)
  }

  lemma {:induction false} RunBinds(cfg: Config, past: seq<LedgerEntry>, c: Core, actions: seq<Action>)
    requires Loaded(cfg) && Sound(cfg, past, c)
    ensures AllBound(cfg, c, Run(cfg, c, actions))
    decreases |actions|
  {
    if actions == [] {
      assert StampedBy(cfg, c, c, []);
    } else {
      hide Step, AllBound, Sound;
      var d := Step(cfg, c, actions[0]);
      StepWrites(cfg, past, c, actions[0]);
      WritesBinds(cfg, c, d, WriterOf(actions[0]), StepRecords(cfg, c, actions[0]));
      StepKeepsSound(cfg, past, c, actions[0]);
      RunBinds(cfg, past, d, actions[1..]);
      AllBoundTrans(cfg, c, d, Run(cfg, d, actions[1..]));
    }
  }

  lemma WritesBinds(cfg: Config, c: Core, d: Core, agent: Option<AgentId>, records: seq<Record>)
    requires Writes(cfg, c, d, agent, records)
    ensures AllBound(cfg, c, d)
  {
    hide StampedBy;
    forall i | |c.chain| <= i < |d.chain| ensures Bound(cfg, d.chain[i], d.chain[i].agent) {
      var k := i - |c.chain|;
      assert Stands(cfg, d, |c.events| + k, |c.chain| + k, agent, records[k]);
    }
  }

  lemma AllBoundTrans(cfg: Config, c: Core, d: Core, e: Core)
    requires AllBound(cfg, c, d) && AllBound(cfg, d, e)
    ensures AllBound(cfg, c, e)
  {
    hide StampedBy, Bound;
    var early, late :| StampedBy(cfg, c, d, early) && StampedBy(cfg, d, e, late);
    StampsJoin(cfg, c, d, e, early, late);
    forall i | |c.chain| <= i < |e.chain| ensures Bound(cfg, e.chain[i], e.chain[i].agent) {
      assert i < |d.chain| ==> e.chain[i] == d.chain[i];
    }
  }

  /** Over any run of a new session: every entry it added without an agent carries the fleet's digest, every
      entry it added for an agent carries the digest of that agent's own mandate, and no entry is stamped
      by an earlier clock reading than the one before it. */
  lemma EveryEntryIsBound(cfg: Config, past: seq<LedgerEntry>, actions: seq<Action>)
    requires Loaded(cfg)
    ensures var c := Run(cfg, Fresh(cfg, past), actions);
            && past <= c.chain
            && (forall i | |past| <= i < |c.chain| && c.chain[i].agent == None :: c.chain[i].mandateHash == cfg.mandateSetHash)
            && (forall i | |past| <= i < |c.chain| && c.chain[i].agent.Some? ::
                  && c.chain[i].agent.value in cfg.mandates
                  && c.chain[i].mandateHash == cfg.mandateHash(cfg.mandates[c.chain[i].agent.value]))
            && exists readings :: StampedBy(cfg, Fresh(cfg, past), c, readings)
  {
    hide Run, StampedBy;
    RunBinds(cfg, past, Fresh(cfg, past), actions);
  }
}
