/** The memo drafting turn and its draft-revise loop (orchestrator/memo_turn.py). */
module MemoTurns {
  import opened Prelude
  import opened Canonical
  import opened Mandates
  import opened Ledgers
  import opened Artifacts
  import opened Gates
  import opened Sessions
  import opened Adapters
  import opened Dispatching
  import opened DispatchProofs
  import opened Fences
  import opened Preflights
  import opened Runs
  import opened Records
  import opened MemoGates
  import E = EvidenceTurns

  /** What answers during one attempt: the instruction's text (from the second attempt on it quotes the
      failures found in the last draft), the request's size, the model, the draft check (an accepted draft
      carries its memo), and the citation tool's handler. */
  datatype DraftAnswers = DraftAnswers(
    instruction: string, estimate: nat, attempts: nat -> Attempt, draft: Option<EnforcementMemo>,
    handler: HandlerAnswer)

  datatype AttemptOutcome = OutOfBudget | NoModel | DraftRefused | Verified | Rejected

  datatype AttemptRecord = AttemptRecord(attempt: nat, outcome: AttemptOutcome)

  function CitationProposal(table: map<ToolId, ToolEntry>): ToolProposal
    requires ResolvePolicyCitation in table
  {
    ToolProposal(AgentId.Memo, ToolName(ResolvePolicyCitation), E.RequiredScopeNames(table[ResolvePolicyCitation]))
  }

  datatype Draft =
    | Drafted(outcome: AttemptOutcome, ledgered: seq<LedgerEntry>, memo: Option<EnforcementMemo>, stop: Option<CloseReason>)
    | DraftRaised(why: Raised)

  // end_turn, closing an attempt off.
  function EndTurn(c: Core, d: Draft): (Core, Draft) {
    var (c', ok) := Move(c, Opened);
    (c', if ok then d else DraftRaised(BySession(IllegalTransition)))
  }

  function AttemptStep(cfg: Config, c: Core, s: E.Setting, pack: EvidencePack, a: DraftAnswers): (Core, Draft)
    requires s.maxAttempts >= 1 && c.budgets.Keys == cfg.mandates.Keys && ResolvePolicyCitation in s.table
  {
    var (c1, start) := BeginTurn(c, AgentId.Memo, 0);
    match start
    case TurnRaised(error) => (c1, DraftRaised(BySession(error)))
    case TurnRefused(reason) => (c1, Drafted(OutOfBudget, [], None, Some(reason)))
    case Started =>
      match Preflight(cfg.codec.hash, NodeRecords(pack), a.instruction)
      case Some(why) => (c1, DraftRaised(why))
      case None => AskModel(cfg, c1, s, a)
  }

  function AskModel(cfg: Config, c: Core, s: E.Setting, a: DraftAnswers): (Core, Draft)
    requires s.maxAttempts >= 1 && c.budgets.Keys == cfg.mandates.Keys && ResolvePolicyCitation in s.table
  {
    var (asked, call, sent) := Call(cfg, c, AgentId.Memo, a.estimate, Clean(a.instruction), s.maxAttempts, a.attempts);
    match call
    case CallRaised(error) => (asked, DraftRaised(BySession(error)))
    case CallRefused(reason) => EndTurn(asked, Drafted(NoModel, sent, None, Some(reason)))
    case CallFailed => EndTurn(asked, Drafted(NoModel, sent, None, Some(DispatchError)))
    case CallAnswered(_) => Submit(cfg, asked, s, a, sent)
  }

  // The draft is recorded whatever it is; only one that is a memo at all is submitted.
  function Submit(cfg: Config, c: Core, s: E.Setting, a: DraftAnswers, sent: seq<LedgerEntry>): (Core, Draft)
    requires AgentId.Memo in cfg.mandates && ResolvePolicyCitation in s.table
  {
    var body := VerdictPayload(a.draft.Some?);
    var proposed := Note(cfg, c, OutputProposed, Some(AgentId.Memo), body);
    var ledgered := sent + [NewEntry(cfg, c, OutputProposed, Some(AgentId.Memo), body)];
    if a.draft == None then EndTurn(proposed, Drafted(DraftRefused, ledgered, None, None))
    else
      var (after, o) := Dispatch(cfg, proposed, CitationProposal(s.table), s.table, s.checks, a.handler);
      if o.decision == Executed && o.result.Some? && o.result.value.MemoArtifact? then
        EndTurn(after, Drafted(Verified, ledgered + o.ledgered, Some(o.result.value.memo), None))
      else
        EndTurn(after, Drafted(Rejected, ledgered + o.ledgered, a.draft, None))
  }

  // ------------------------------------------------------------------
  // What one attempt keeps
  // ------------------------------------------------------------------

  /** The gate a memo session is run with: RECOMMEND, over this pack and this corpus. */
  ghost predicate GatedBy(s: E.Setting, pack: EvidencePack, corpus: PolicyCorpus)
    requires ResolvePolicyCitation in s.table
  {
    && s.table[ResolvePolicyCitation].consequence == Recommend
    && (forall a :: s.checks.recommend(a) == MemoChecker(pack, corpus)(a))
  }

  lemma CitationIsMemo(table: map<ToolId, ToolEntry>)
    requires ResolvePolicyCitation in table
    ensures CitationProposal(table).agent == AgentId.Memo
    ensures ResolveTool(CitationProposal(table).toolName) == Some(ResolvePolicyCitation)
  {
    ResolveToolExact(ToolName(ResolvePolicyCitation), ResolvePolicyCitation);
  }

  /** Only a supported memo comes out of a dispatch as executed. */
  lemma ExecutedMemoIsSupported(cfg: Config, past: seq<LedgerEntry>, c: Core, s: E.Setting, answer: HandlerAnswer,
                                pack: EvidencePack, corpus: PolicyCorpus)
    requires Loaded(cfg) && AgentId.Memo in cfg.mandates && Sound(cfg, past, c)
    requires ResolvePolicyCitation in s.table && GatedBy(s, pack, corpus)
    ensures var (c', o) := Dispatch(cfg, c, CitationProposal(s.table), s.table, s.checks, answer);
            && HumanDecision !in EventsOf(o.ledgered)
            && (o.decision == Executed && o.result.Some? && o.result.value.MemoArtifact? ==>
                  && Supported(o.result.value.memo, pack, corpus)
                  && EventsOf(o.ledgered) == [ToolCalled, ToolResult, VerificationPass])
  {
    hide Dispatch, ResolveTool, CitationProposal, EventsOf, MemoCheck, Supported, RefusalFor, RefusalEvents;
    var p := CitationProposal(s.table);
    CitationIsMemo(s.table);
    DispatchTrace(cfg, past, c, p, s.table, s.checks, answer);
    DispatchGrammar(cfg, past, c, p, s.table, s.checks, answer);
    var (c', o) := Dispatch(cfg, c, p, s.table, s.checks, answer);
    if o.decision == Executed && o.result.Some? && o.result.value.MemoArtifact? {
      assert answer.artifact == o.result.value;
      assert Evaluate(Recommend, answer.artifact, s.checks, None) == [];
      assert MemoCheck(answer.artifact.memo, pack, corpus) == [];
      MemoCheckMeaning(answer.artifact.memo, pack, corpus);
    }
  }

  // What a finished attempt looks like.
  ghost predicate DraftFacts(d: Draft, pack: EvidencePack, corpus: PolicyCorpus) {
    && d.Drafted?
    && (d.stop.Some? <==> d.outcome in {OutOfBudget, NoModel})
    && (d.memo.Some? <==> d.outcome in {Verified, Rejected})
    && (d.outcome == Verified ==> Supported(d.memo.value, pack, corpus))
    && HumanDecision !in EventsOf(d.ledgered)
  }

  lemma SubmitContinues(cfg: Config, past: seq<LedgerEntry>, c: Core, s: E.Setting, a: DraftAnswers, sent: seq<LedgerEntry>,
                        pack: EvidencePack, corpus: PolicyCorpus)
    requires Loaded(cfg) && AgentId.Memo in cfg.mandates
    requires ResolvePolicyCitation in s.table && GatedBy(s, pack, corpus)
    requires Sound(cfg, past, c) && c.state == AgentTurn && HumanDecision !in EventsOf(sent)
    ensures var (c', d) := Submit(cfg, c, s, a, sent);
            && E.Continues(cfg, past, c, c') && c'.state == Opened && c'.budgets == c.budgets
            && DraftFacts(d, pack, corpus) && d.ledgered == sent + E.Between(c, c')
  {
    hide NewEntry, Dispatch, CitationProposal, Supported, GatedBy, EventsOf, Note, Sound;
    var body := VerdictPayload(a.draft.Some?);
    var proposed := Note(cfg, c, OutputProposed, Some(AgentId.Memo), body);
    var e := NewEntry(cfg, c, OutputProposed, Some(AgentId.Memo), body);
    E.NoteContinues(cfg, past, c, OutputProposed, AgentId.Memo, body);
    EventsJoin(sent, [e]);
    if a.draft.Some? {
      CitationIsMemo(s.table);
      E.DispatchContinues(cfg, past, proposed, CitationProposal(s.table), s.table, s.checks, a.handler);
      ExecutedMemoIsSupported(cfg, past, proposed, s, a.handler, pack, corpus);
      var (after, o) := Dispatch(cfg, proposed, CitationProposal(s.table), s.table, s.checks, a.handler);
      E.ContinuesTrans(cfg, past, c, proposed, after);
      EventsJoin(sent + [e], o.ledgered);
      assert sent + [e] + o.ledgered == sent + E.Between(c, after);
      StillContinues(cfg, past, c, after);
    } else {
      StillContinues(cfg, past, c, proposed);
    }
  }

  // Ending the turn moves the state and nothing else.
  lemma StillContinues(cfg: Config, past: seq<LedgerEntry>, c: Core, d: Core)
    requires E.Continues(cfg, past, c, d) && d.state == AgentTurn
    ensures Move(d, Opened) == (d.(state := Opened), true)
    ensures E.Continues(cfg, past, c, Move(d, Opened).0) && E.Between(c, Move(d, Opened).0) == E.Between(c, d)
  {
  }

  lemma EventsJoin(xs: seq<LedgerEntry>, ys: seq<LedgerEntry>)
    ensures EventsOf(xs + ys) == EventsOf(xs) + EventsOf(ys)
  {
  }

  // Where an attempt ends, whatever happens: back in OPEN with a finished attempt and a report of what it
  // wrote, or in the turn it raised from.
  ghost predicate EndsAfter(c: Core, c': Core, d: Draft, pack: EvidencePack, corpus: PolicyCorpus)
    requires |c.chain| <= |c'.chain|
  {
    && HumanDecision !in EventsOf(E.Between(c, c'))
    && match d
       case Drafted(_, ledgered, _, _) => c'.state == Opened && DraftFacts(d, pack, corpus) && ledgered == E.Between(c, c')
       case DraftRaised(why) => c'.state == AgentTurn && why !in {BySession(IllegalTransition), BySession(UnknownAgent)}
  }

  lemma AskModelContinues(cfg: Config, past: seq<LedgerEntry>, c: Core, s: E.Setting, a: DraftAnswers,
                          pack: EvidencePack, corpus: PolicyCorpus)
    requires Loaded(cfg) && AgentId.Memo in cfg.mandates && s.maxAttempts >= 1
    requires ResolvePolicyCitation in s.table && GatedBy(s, pack, corpus)
    requires Sound(cfg, past, c) && c.state == AgentTurn
    ensures var (c', d) := AskModel(cfg, c, s, a);
            && E.Continues(cfg, past, c, c') && EndsAfter(c, c', d, pack, corpus)
            && (d.Drafted? <==> (E.Affordable(c.budgets[AgentId.Memo], a.estimate) ==> Clean(a.instruction)))
  {
    hide Call, Submit, NewEntry, Supported, GatedBy, EventsOf, Clean;
    CallKeepsSound(cfg, past, c, AgentId.Memo, a.estimate, Clean(a.instruction), s.maxAttempts, a.attempts);
    E.CallAnswers(cfg, c, AgentId.Memo, a.estimate, Clean(a.instruction), s.maxAttempts, a.attempts);
    var (asked, call, sent) := Call(cfg, c, AgentId.Memo, a.estimate, Clean(a.instruction), s.maxAttempts, a.attempts);
    assert E.Between(c, asked) == sent;
    assert HumanDecision !in EventsOf(sent);
    if call.CallAnswered? {
      SubmitContinues(cfg, past, asked, s, a, sent, pack, corpus);
      E.ContinuesTrans(cfg, past, c, asked, Submit(cfg, asked, s, a, sent).0);
    }
  }

  /** When the turn begins at all, what keeps an attempt from raising: entities that can be presented
      under its instruction, and an instruction that can be digested if it is sent. */
  ghost predicate AttemptClears(cfg: Config, c: Core, pack: EvidencePack, a: DraftAnswers)
    requires c.budgets.Keys == cfg.mandates.Keys && AgentId.Memo in cfg.mandates
  {
    CheckBudget(c.budgets[AgentId.Memo], 0, true) == None ==>
      && Presentable(cfg.codec.hash, NodeRecords(pack), a.instruction)
      && (E.Affordable(c.budgets[AgentId.Memo], a.estimate) ==> Clean(a.instruction))
  }

  lemma AttemptContinues(cfg: Config, past: seq<LedgerEntry>, c: Core, s: E.Setting, a: DraftAnswers,
                         pack: EvidencePack, corpus: PolicyCorpus)
    requires Loaded(cfg) && AgentId.Memo in cfg.mandates && s.maxAttempts >= 1
    requires ResolvePolicyCitation in s.table && GatedBy(s, pack, corpus)
    requires Sound(cfg, past, c) && c.state == Opened
    ensures var (c', d) := AttemptStep(cfg, c, s, pack, a);
            && E.Continues(cfg, past, c, c') && EndsAfter(c, c', d, pack, corpus)
            && (d.Drafted? <==> AttemptClears(cfg, c, pack, a))
  {
    hide AskModel, Supported, GatedBy, EventsOf, Preflight, Presentable, NodeRecords, Clean;
    var (c1, start) := BeginTurn(c, AgentId.Memo, 0);
    assert E.Between(c, c1) == [];
    assert E.Continues(cfg, past, c, c1);
    NoEvents();
    PreflightIff(cfg.codec.hash, NodeRecords(pack), a.instruction);
    if start.Started? && Preflight(cfg.codec.hash, NodeRecords(pack), a.instruction) == None {
      AskModelContinues(cfg, past, c1, s, a, pack, corpus);
      E.ContinuesTrans(cfg, past, c, c1, AskModel(cfg, c1, s, a).0);
      assert E.Between(c1, AskModel(cfg, c1, s, a).0) == E.Between(c, AskModel(cfg, c1, s, a).0);
    }
  }

  // ------------------------------------------------------------------
  // What becomes of one attempt
  // ------------------------------------------------------------------

  /** The submission is permitted, the tool returns a memo, and the gate finds every part of it supported. */
  ghost predicate Delivers(m: Mandate, s: E.Setting, answer: HandlerAnswer, pack: EvidencePack, corpus: PolicyCorpus)
    requires ResolvePolicyCitation in s.table
  {
    && Permitted(m, CitationProposal(s.table), s.table) && m.outputSchema == MemoSchema
    && answer.Returned? && answer.artifact.MemoArtifact? && Supported(answer.artifact.memo, pack, corpus)
  }

  lemma GateAcceptsMemo(s: E.Setting, artifact: Artifact, pack: EvidencePack, corpus: PolicyCorpus)
    requires ResolvePolicyCitation in s.table && GatedBy(s, pack, corpus)
    ensures Evaluate(Recommend, artifact, s.checks, None) == [] <==>
              artifact.MemoArtifact? && Supported(artifact.memo, pack, corpus)
  {
    hide MemoCheck, Supported;
    assert s.checks.recommend(artifact) == MemoChecker(pack, corpus)(artifact);
    if artifact.MemoArtifact? {
      MemoCheckMeaning(artifact.memo, pack, corpus);
    }
  }

  lemma SubmitOutcome(cfg: Config, past: seq<LedgerEntry>, c: Core, s: E.Setting, a: DraftAnswers, sent: seq<LedgerEntry>,
                      pack: EvidencePack, corpus: PolicyCorpus)
    requires Loaded(cfg) && AgentId.Memo in cfg.mandates
    requires ResolvePolicyCitation in s.table && GatedBy(s, pack, corpus)
    requires Sound(cfg, past, c) && c.state == AgentTurn
    ensures var d := Submit(cfg, c, s, a, sent).1;
            && d.Drafted? && d.stop == None
            && (d.outcome, d.memo) ==
               if a.draft == None then (DraftRefused, None)
               else if Delivers(cfg.mandates[AgentId.Memo], s, a.handler, pack, corpus)
               then (Verified, Some(a.handler.artifact.memo))
               else (Rejected, a.draft)
  {
    hide NewEntry, Dispatch, CitationProposal, Supported, GatedBy, Permitted, Evaluate, Note;
    var body := VerdictPayload(a.draft.Some?);
    var proposed := Note(cfg, c, OutputProposed, Some(AgentId.Memo), body);
    E.NoteContinues(cfg, past, c, OutputProposed, AgentId.Memo, body);
    CitationIsMemo(s.table);
    var p := CitationProposal(s.table);
    E.DispatchContinues(cfg, past, proposed, p, s.table, s.checks, a.handler);
    ExecutedIff(cfg, past, proposed, p, s.table, s.checks, a.handler);
    if a.handler.Returned? {
      GateAcceptsMemo(s, a.handler.artifact, pack, corpus);
    }
    Recommends(s, pack, corpus);
  }

  lemma Recommends(s: E.Setting, pack: EvidencePack, corpus: PolicyCorpus)
    requires ResolvePolicyCitation in s.table && GatedBy(s, pack, corpus)
    ensures s.table[ResolvePolicyCitation].consequence == Recommend
  {
  }

  /** What becomes of an attempt that nothing raises out of, and of its memo: out of budget or without a model
      for the reason it names, refused when the response is no draft, verified exactly when the submission
      delivers a supported memo (that memo is kept), and otherwise rejected with the draft kept. */
  lemma AttemptOutcomeIs(cfg: Config, past: seq<LedgerEntry>, c: Core, s: E.Setting, a: DraftAnswers,
                         pack: EvidencePack, corpus: PolicyCorpus)
    requires Loaded(cfg) && AgentId.Memo in cfg.mandates && s.maxAttempts >= 1
    requires ResolvePolicyCitation in s.table && GatedBy(s, pack, corpus)
    requires Sound(cfg, past, c) && c.state == Opened && AttemptClears(cfg, c, pack, a)
    ensures var d := AttemptStep(cfg, c, s, pack, a).1;
            var b := c.budgets[AgentId.Memo];
            var reached := E.Reached(b, a.estimate, a.attempts, s.maxAttempts);
            && d.Drafted?
            && (d.outcome == OutOfBudget <==> CheckBudget(b, 0, true).Some?)
            && (d.outcome == NoModel <==> CheckBudget(b, 0, true) == None && !reached)
            && d.stop == (if CheckBudget(b, 0, true).Some? then CheckBudget(b, 0, true)
                          else if !E.Affordable(b, a.estimate) then Some(TokenBudgetExhausted)
                          else if !E.Answered(a.attempts, s.maxAttempts) then Some(DispatchError)
                          else None)
            && (d.outcome == DraftRefused <==> reached && a.draft == None)
            && (d.outcome == Verified <==>
                  reached && a.draft.Some? && Delivers(cfg.mandates[AgentId.Memo], s, a.handler, pack, corpus))
            && (d.outcome == Verified ==> d.memo == Some(a.handler.artifact.memo))
            && (d.outcome == Rejected ==> d.memo == a.draft && a.draft.Some?)
            && (d.outcome !in {Verified, Rejected} ==> d.memo == None)
  {
    hide AskModel, Supported, GatedBy, Preflight, Presentable, NodeRecords, Clean, Delivers, Sound;
    PreflightIff(cfg.codec.hash, NodeRecords(pack), a.instruction);
    StartedSound(cfg, past, c);
    var (c1, start) := BeginTurn(c, AgentId.Memo, 0);
    if start.Started? {
      AskOutcome(cfg, past, c1, s, a, pack, corpus);
    }
  }

  lemma StartedSound(cfg: Config, past: seq<LedgerEntry>, c: Core)
    requires Sound(cfg, past, c) && AgentId.Memo in cfg.mandates
    ensures Sound(cfg, past, BeginTurn(c, AgentId.Memo, 0).0)
    ensures AgentId.Memo in c.budgets && AgentId.Memo in BeginTurn(c, AgentId.Memo, 0).0.budgets
    ensures var (b, b') := (c.budgets[AgentId.Memo], BeginTurn(c, AgentId.Memo, 0).0.budgets[AgentId.Memo]);
            b'.tokensSpent == b.tokensSpent && b'.tokenBudget == b.tokenBudget
  {
  }

  lemma AskOutcome(cfg: Config, past: seq<LedgerEntry>, c: Core, s: E.Setting, a: DraftAnswers,
                   pack: EvidencePack, corpus: PolicyCorpus)
    requires Loaded(cfg) && AgentId.Memo in cfg.mandates && s.maxAttempts >= 1
    requires ResolvePolicyCitation in s.table && GatedBy(s, pack, corpus)
    requires Sound(cfg, past, c) && c.state == AgentTurn
    requires E.Affordable(c.budgets[AgentId.Memo], a.estimate) ==> Clean(a.instruction)
    ensures var d := AskModel(cfg, c, s, a).1;
            && d.Drafted?
            && (d.outcome, d.memo, d.stop) ==
               if !E.Affordable(c.budgets[AgentId.Memo], a.estimate) then (NoModel, None, Some(TokenBudgetExhausted))
               else if !E.Answered(a.attempts, s.maxAttempts) then (NoModel, None, Some(DispatchError))
               else if a.draft == None then (DraftRefused, None, None)
               else if Delivers(cfg.mandates[AgentId.Memo], s, a.handler, pack, corpus)
               then (Verified, Some(a.handler.artifact.memo), None)
               else (Rejected, a.draft, None)
  {
    hide Call, Submit, NewEntry, Supported, GatedBy, Clean, Delivers;
    CallKeepsSound(cfg, past, c, AgentId.Memo, a.estimate, Clean(a.instruction), s.maxAttempts, a.attempts);
    E.CallAnswers(cfg, c, AgentId.Memo, a.estimate, Clean(a.instruction), s.maxAttempts, a.attempts);
    PromptNeedsBudget(cfg, past, c, AgentId.Memo, a.estimate, Clean(a.instruction), s.maxAttempts, a.attempts);
    var (asked, call, sent) := Call(cfg, c, AgentId.Memo, a.estimate, Clean(a.instruction), s.maxAttempts, a.attempts);
    if call.CallAnswered? {
      SubmitOutcome(cfg, past, asked, s, a, sent, pack, corpus);
    }
  }

  /** The memo turn's own tool is open to it exactly when the mandate lists it, covers what it needs and admits
      its consequence, below ENFORCE, and the build has a handler. */
  lemma CitationPermittedIff(m: Mandate, table: map<ToolId, ToolEntry>)
    requires ResolvePolicyCitation in table
    ensures var entry := table[ResolvePolicyCitation];
            Permitted(m, CitationProposal(table), table) <==>
              && ResolvePolicyCitation in m.allowedTools && entry.requiredScopes <= m.dataScopes
              && entry.consequence != Enforce && Admits(m.ceiling, entry.consequence) && entry.hasHandler
  {
    CitationIsMemo(table);
    E.AsksForWhatIsNeeded(table[ResolvePolicyCitation], m);
    hide ResolveTool, E.RequiredScopeNames, Requested;
  }

  /** What an attempt that clears records, in order: the prompt, the response as proposed, and whatever the
      dispatch of an accepted draft records. */
  ghost function AttemptRecords(b: Budget, m: Mandate, s: E.Setting, a: DraftAnswers): seq<Record>
    requires s.maxAttempts >= 1 && ResolvePolicyCitation in s.table
  {
    if CheckBudget(b, 0, true).Some? || !E.Affordable(b, a.estimate) then []
    else
      [(PromptSent, PromptPayload(a.estimate))] +
      if !E.Answered(a.attempts, s.maxAttempts) then [(VerificationFail, AdapterErrorPayload)]
      else SubmittedRecords(m, s, a)
  }

  ghost function SubmittedRecords(m: Mandate, s: E.Setting, a: DraftAnswers): seq<Record>
    requires ResolvePolicyCitation in s.table
  {
    [(OutputProposed, VerdictPayload(a.draft.Some?))] +
    if a.draft.Some? then DispatchRecords(m, CitationProposal(s.table), s.table, s.checks, a.handler) else []
  }

  lemma SubmitRecords(cfg: Config, past: seq<LedgerEntry>, c: Core, s: E.Setting, a: DraftAnswers, sent: seq<LedgerEntry>)
    requires Loaded(cfg) && AgentId.Memo in cfg.mandates && ResolvePolicyCitation in s.table
    requires Sound(cfg, past, c) && c.state == AgentTurn
    ensures Writes(cfg, c, Submit(cfg, c, s, a, sent).0, Some(AgentId.Memo),
                   SubmittedRecords(cfg.mandates[AgentId.Memo], s, a))
  {
    hide NewEntry, Dispatch, CitationProposal, Note, Writes, DispatchRecords;
    var who, c', body := Some(AgentId.Memo), Submit(cfg, c, s, a, sent).0, VerdictPayload(a.draft.Some?);
    var proposed := Note(cfg, c, OutputProposed, who, body);
    E.NoteContinues(cfg, past, c, OutputProposed, AgentId.Memo, body);
    NoteWrites(cfg, c, OutputProposed, who, body);
    var first := [(OutputProposed, body)];
    if a.draft.Some? {
      CitationIsMemo(s.table);
      var p := CitationProposal(s.table);
      var records := DispatchRecords(cfg.mandates[AgentId.Memo], p, s.table, s.checks, a.handler);
      E.DispatchContinues(cfg, past, proposed, p, s.table, s.checks, a.handler);
      DispatchWrites(cfg, past, proposed, p, s.table, s.checks, a.handler);
      var after := Dispatch(cfg, proposed, p, s.table, s.checks, a.handler).0;
      WritesTrans(cfg, c, proposed, after, who, first, records);
      SameWrites(cfg, c, after, c', who, first + records);
    } else {
      SameWrites(cfg, c, proposed, c', who, first);
      assert first + [] == first;
    }
  }

  lemma AskModelRecords(cfg: Config, past: seq<LedgerEntry>, c: Core, s: E.Setting, a: DraftAnswers)
    requires Loaded(cfg) && AgentId.Memo in cfg.mandates && s.maxAttempts >= 1 && ResolvePolicyCitation in s.table
    requires Sound(cfg, past, c) && c.state == AgentTurn
    requires E.Affordable(c.budgets[AgentId.Memo], a.estimate) ==> Clean(a.instruction)
    ensures Writes(cfg, c, AskModel(cfg, c, s, a).0, Some(AgentId.Memo),
                   if !E.Affordable(c.budgets[AgentId.Memo], a.estimate) then []
                   else
                     [(PromptSent, PromptPayload(a.estimate))] +
                     if !E.Answered(a.attempts, s.maxAttempts) then [(VerificationFail, AdapterErrorPayload)]
                     else SubmittedRecords(cfg.mandates[AgentId.Memo], s, a))
  {
    hide Call, Submit, NewEntry, Clean, Writes, SubmittedRecords;
    var who, c' := Some(AgentId.Memo), AskModel(cfg, c, s, a).0;
    CallKeepsSound(cfg, past, c, AgentId.Memo, a.estimate, Clean(a.instruction), s.maxAttempts, a.attempts);
    E.CallAnswers(cfg, c, AgentId.Memo, a.estimate, Clean(a.instruction), s.maxAttempts, a.attempts);
    CallWrites(cfg, c, AgentId.Memo, a.estimate, Clean(a.instruction), s.maxAttempts, a.attempts);
    var (asked, call, sent) := Call(cfg, c, AgentId.Memo, a.estimate, Clean(a.instruction), s.maxAttempts, a.attempts);
    var records := CallRecords(c.budgets[AgentId.Memo], a.estimate, Clean(a.instruction), s.maxAttempts, a.attempts);
    if call.CallAnswered? {
      SubmitRecords(cfg, past, asked, s, a, sent);
      var prompt := [(PromptSent, PromptPayload(a.estimate))];
      assert prompt + [] == prompt;
      assert records == prompt;
      WritesTrans(cfg, c, asked, c', who, prompt, SubmittedRecords(cfg.mandates[AgentId.Memo], s, a));
    } else {
      SameWrites(cfg, c, asked, c', who, records);
    }
  }

  /** So they are, each for the memo agent and bound to its mandate. */
  lemma AttemptWrites(cfg: Config, past: seq<LedgerEntry>, c: Core, s: E.Setting, pack: EvidencePack, a: DraftAnswers)
    requires Loaded(cfg) && AgentId.Memo in cfg.mandates && s.maxAttempts >= 1 && ResolvePolicyCitation in s.table
    requires Sound(cfg, past, c) && c.state == Opened && AttemptClears(cfg, c, pack, a)
    ensures Writes(cfg, c, AttemptStep(cfg, c, s, pack, a).0, Some(AgentId.Memo),
                   AttemptRecords(c.budgets[AgentId.Memo], cfg.mandates[AgentId.Memo], s, a))
  {
    hide AskModel, Preflight, Presentable, NodeRecords, Clean, Writes, SubmittedRecords, Sound;
    PreflightIff(cfg.codec.hash, NodeRecords(pack), a.instruction);
    StartedSound(cfg, past, c);
    var (c1, start) := BeginTurn(c, AgentId.Memo, 0);
    if start.Started? {
      AskModelRecords(cfg, past, c1, s, a);
      FromOther(cfg, c1, c, AskModel(cfg, c1, s, a).0, Some(AgentId.Memo),
                AttemptRecords(c.budgets[AgentId.Memo], cfg.mandates[AgentId.Memo], s, a));
    } else {
      WritesNothing(cfg, c, c1, Some(AgentId.Memo));
    }
  }

  lemma NoEvents()
    ensures EventsOf([]) == []
  {
  }

  // ------------------------------------------------------------------
  // The whole turn
  // ------------------------------------------------------------------

  datatype MemoTurn =
    | Finished(memo: Option<EnforcementMemo>, attempts: seq<AttemptRecord>, ledgered: seq<LedgerEntry>,
               stop: Option<CloseReason>)
    | Aborted(why: Raised)

  predicate IsVerified(t: MemoTurn) {
    t.Finished? && exists i | 0 <= i < |t.attempts| :: t.attempts[i].outcome == Verified
  }

  lemma AttemptKeepsKeys(cfg: Config, c: Core, s: E.Setting, pack: EvidencePack, a: DraftAnswers)
    requires s.maxAttempts >= 1 && c.budgets.Keys == cfg.mandates.Keys && ResolvePolicyCitation in s.table
    ensures AttemptStep(cfg, c, s, pack, a).0.budgets.Keys == cfg.mandates.Keys
  {
    hide NewEntry, Call, Dispatch, CitationProposal, Preflight, NodeRecords, Clean;
    var (c1, start) := BeginTurn(c, AgentId.Memo, 0);
    if start.Started? {
      E.CallKeepsKeys(cfg, c1, AgentId.Memo, a.estimate, Clean(a.instruction), s.maxAttempts, a.attempts);
      CitationIsMemo(s.table);
      forall d: Core
        ensures Dispatch(cfg, d, CitationProposal(s.table), s.table, s.checks, a.handler).0.budgets == d.budgets
      {
        DispatchKeepsBudgets(cfg, d, CitationProposal(s.table), s.table, s.checks, a.handler);
      }
    }
  }

  /** The loop from attempt k on: a verified memo or a reason to stop ends it, anything else is
      the next attempt's input; the last memo seen is kept. */
  function Attempts(cfg: Config, c: Core, k: nat, ceiling: int, s: E.Setting, pack: EvidencePack,
                    memo: Option<EnforcementMemo>, answers: nat -> DraftAnswers): (Core, MemoTurn)
    requires s.maxAttempts >= 1 && c.budgets.Keys == cfg.mandates.Keys && ResolvePolicyCitation in s.table
    decreases ceiling - k + 1
  {
    if k > ceiling then (c, Finished(memo, [], [], None))
    else
      var (c1, d) := AttemptStep(cfg, c, s, pack, answers(k));
      AttemptKeepsKeys(cfg, c, s, pack, answers(k));
      match d
      case DraftRaised(why) => (c1, Aborted(why))
      case Drafted(outcome, ledgered, latest, stop) =>
        var record := AttemptRecord(k, outcome);
        var next := if latest.Some? then latest else memo;
        if stop.Some? || outcome == Verified then (c1, Finished(next, [record], ledgered, stop))
        else
          var (c2, rest) := Attempts(cfg, c1, k + 1, ceiling, s, pack, next, answers);
          (c2, match rest
               case Aborted(why) => Aborted(why)
               case Finished(final, attempts, more, reason) => Finished(final, [record] + attempts, ledgered + more, reason))
  }

  // How many attempts a turn may make.
  function Ceiling(cfg: Config, maxAttempts: Option<int>): int
    requires AgentId.Memo in cfg.mandates
  {
    if maxAttempts.Some? then maxAttempts.value else cfg.mandates[AgentId.Memo].maxSteps
  }

  function RunMemo(cfg: Config, c: Core, s: E.Setting, maxAttempts: Option<int>, pack: EvidencePack,
                   answers: nat -> DraftAnswers): (Core, MemoTurn)
    requires s.maxAttempts >= 1 && c.budgets.Keys == cfg.mandates.Keys && ResolvePolicyCitation in s.table
  {
    if AgentId.Memo !in cfg.mandates then (c, Aborted(BySession(UnknownAgent)))
    else Attempts(cfg, c, 1, Ceiling(cfg, maxAttempts), s, pack, None, answers)
  }

  /** The iterations a turn comes to. */
  function Visits(cfg: Config, c: Core, k: nat, ceiling: int, s: E.Setting, pack: EvidencePack,
                  answers: nat -> DraftAnswers): (r: seq<E.Visit>)
    requires s.maxAttempts >= 1 && c.budgets.Keys == cfg.mandates.Keys && ResolvePolicyCitation in s.table
    ensures forall i | 0 <= i < |r| :: r[i].core.budgets.Keys == cfg.mandates.Keys
    decreases ceiling - k + 1
  {
    hide AttemptStep;
    if k > ceiling then []
    else
      var (c1, d) := AttemptStep(cfg, c, s, pack, answers(k));
      AttemptKeepsKeys(cfg, c, s, pack, answers(k));
      [E.Visit(c, k, pack)] +
      if d.DraftRaised? || d.stop.Some? || d.outcome == Verified then []
      else Visits(cfg, c1, k + 1, ceiling, s, pack, answers)
  }

  /** No iteration the turn comes to raises. */
  ghost predicate AllClear(cfg: Config, visits: seq<E.Visit>, answers: nat -> DraftAnswers)
    requires AgentId.Memo in cfg.mandates
    requires forall i | 0 <= i < |visits| :: visits[i].core.budgets.Keys == cfg.mandates.Keys
  {
    forall i | 0 <= i < |visits| :: AttemptClears(cfg, visits[i].core, visits[i].pack, answers(visits[i].index))
  }

  lemma AllClearCons(cfg: Config, first: E.Visit, rest: seq<E.Visit>, answers: nat -> DraftAnswers)
    requires AgentId.Memo in cfg.mandates && first.core.budgets.Keys == cfg.mandates.Keys
    requires forall i | 0 <= i < |rest| :: rest[i].core.budgets.Keys == cfg.mandates.Keys
    ensures forall i | 0 <= i < |[first] + rest| :: ([first] + rest)[i].core.budgets.Keys == cfg.mandates.Keys
    ensures AllClear(cfg, [first] + rest, answers) <==>
              AttemptClears(cfg, first.core, first.pack, answers(first.index)) && AllClear(cfg, rest, answers)
  {
    hide AttemptClears;
    var all := [first] + rest;
    if AllClear(cfg, all, answers) {
      assert AttemptClears(cfg, all[0].core, all[0].pack, answers(all[0].index));
      forall i | 0 <= i < |rest| ensures AttemptClears(cfg, rest[i].core, rest[i].pack, answers(rest[i].index)) {
        assert all[i + 1] == rest[i];
      }
    }
  }

  lemma NothingToClear(cfg: Config, answers: nat -> DraftAnswers)
    requires AgentId.Memo in cfg.mandates
    ensures AllClear(cfg, [], answers)
  {
  }

  // What every finished turn looks like.
  ghost predicate TurnFacts(t: MemoTurn, k: nat, ceiling: int, pack: EvidencePack, corpus: PolicyCorpus) {
    && t.Finished?
    && (forall i | 0 <= i < |t.attempts| :: t.attempts[i].attempt == k + i)
    && (forall i | 0 <= i < |t.attempts| - 1 :: t.attempts[i].outcome in {DraftRefused, Rejected})
    && |t.attempts| <= Max(0, ceiling - k + 1)
    && (IsVerified(t) ==> t.memo.Some? && Supported(t.memo.value, pack, corpus) && t.stop == None)
    && (t.stop.Some? ==> |t.attempts| > 0 && t.attempts[|t.attempts| - 1].outcome in {OutOfBudget, NoModel})
    && (!IsVerified(t) && t.stop == None ==> |t.attempts| == Max(0, ceiling - k + 1))
    && HumanDecision !in EventsOf(t.ledgered)
  }

  lemma TurnFactsLast(record: AttemptRecord, d: Draft, memo: Option<EnforcementMemo>, k: nat, ceiling: int,
                      pack: EvidencePack, corpus: PolicyCorpus)
    requires k <= ceiling && DraftFacts(d, pack, corpus) && record == AttemptRecord(k, d.outcome)
    requires (d.stop.Some? || d.outcome == Verified) && (d.memo.Some? ==> memo == d.memo)
    ensures TurnFacts(Finished(memo, [record], d.ledgered, d.stop), k, ceiling, pack, corpus)
  {
    hide Supported, EventsOf;
    assert [record][0] == record;
  }

  lemma TurnFactsCons(first: AttemptRecord, ledgered: seq<LedgerEntry>, rest: MemoTurn, k: nat, ceiling: int,
                      pack: EvidencePack, corpus: PolicyCorpus)
    requires k <= ceiling && first.attempt == k && first.outcome in {DraftRefused, Rejected}
    requires HumanDecision !in EventsOf(ledgered) && TurnFacts(rest, k + 1, ceiling, pack, corpus)
    ensures TurnFacts(rest.(attempts := [first] + rest.attempts, ledgered := ledgered + rest.ledgered), k, ceiling, pack, corpus)
  {
    hide Supported, EventsOf;
    EventsJoin(ledgered, rest.ledgered);
    var t := rest.(attempts := [first] + rest.attempts, ledgered := ledgered + rest.ledgered);
    if IsVerified(t) {
      var i :| 0 <= i < |t.attempts| && t.attempts[i].outcome == Verified;
      assert rest.attempts[i - 1].outcome == Verified;
    }
    if IsVerified(rest) {
      var i :| 0 <= i < |rest.attempts| && rest.attempts[i].outcome == Verified;
      assert t.attempts[i + 1].outcome == Verified;
    }
  }

  // Where a turn ends, whatever happens.
  ghost predicate TurnEnds(c: Core, c': Core, t: MemoTurn, k: nat, ceiling: int, pack: EvidencePack, corpus: PolicyCorpus)
    requires |c.chain| <= |c'.chain|
  {
    && HumanDecision !in EventsOf(E.Between(c, c'))
    && match t
       case Finished(_, _, ledgered, _) =>
         c'.state == Opened && TurnFacts(t, k, ceiling, pack, corpus) && ledgered == E.Between(c, c')
       case Aborted(why) => c'.state == AgentTurn && why !in {BySession(IllegalTransition), BySession(UnknownAgent)}
  }

  lemma {:induction false} AttemptsContinue(cfg: Config, past: seq<LedgerEntry>, c: Core, k: nat, ceiling: int,
                                            s: E.Setting, memo: Option<EnforcementMemo>, answers: nat -> DraftAnswers,
                                            pack: EvidencePack, corpus: PolicyCorpus)
    requires Loaded(cfg) && AgentId.Memo in cfg.mandates && s.maxAttempts >= 1
    requires ResolvePolicyCitation in s.table && GatedBy(s, pack, corpus)
    requires Sound(cfg, past, c) && c.state == Opened
    ensures var (c', t) := Attempts(cfg, c, k, ceiling, s, pack, memo, answers);
            && E.Continues(cfg, past, c, c') && TurnEnds(c, c', t, k, ceiling, pack, corpus)
            && (t.Finished? <==> AllClear(cfg, Visits(cfg, c, k, ceiling, s, pack, answers), answers))
    decreases ceiling - k + 1
  {
    hide AttemptStep, Supported, GatedBy, AttemptClears, AllClear, EventsOf, TurnFacts;
    NothingToClear(cfg, answers);
    if k > ceiling {
      assert E.Between(c, c) == [];
      NoAttempts(memo, k, ceiling, pack, corpus);
    } else {
      AttemptContinues(cfg, past, c, s, answers(k), pack, corpus);
      var (c1, d) := AttemptStep(cfg, c, s, pack, answers(k));
      if d.Drafted? && d.stop == None && d.outcome != Verified {
        var next := if d.memo.Some? then d.memo else memo;
        AttemptsContinue(cfg, past, c1, k + 1, ceiling, s, next, answers, pack, corpus);
        var (c2, rest) := Attempts(cfg, c1, k + 1, ceiling, s, pack, next, answers);
        E.ContinuesTrans(cfg, past, c, c1, c2);
        EventsJoin(E.Between(c, c1), E.Between(c1, c2));
        AllClearCons(cfg, E.Visit(c, k, pack), Visits(cfg, c1, k + 1, ceiling, s, pack, answers), answers);
        if rest.Finished? {
          TurnFactsCons(AttemptRecord(k, d.outcome), d.ledgered, rest, k, ceiling, pack, corpus);
        }
      } else {
        AllClearCons(cfg, E.Visit(c, k, pack), [], answers);
        if d.Drafted? {
          var next := if d.memo.Some? then d.memo else memo;
          TurnFactsLast(AttemptRecord(k, d.outcome), d, next, k, ceiling, pack, corpus);
        }
      }
    }
  }

  lemma NoAttempts(memo: Option<EnforcementMemo>, k: nat, ceiling: int, pack: EvidencePack, corpus: PolicyCorpus)
    requires k > ceiling
    ensures TurnFacts(Finished(memo, [], [], None), k, ceiling, pack, corpus) && EventsOf([]) == []
  {
  }

  /** Whatever the model drafts over any number of attempts: the turn takes no human decision and never
      attempts an illegal transition, a turn that returns ends in OPEN and reports the entries it wrote,
      and if it returns verified, its memo is a draft bound to this pack and corpus, every fact of it
      cites evidence its pack carries, and every policy ground quotes consecutive whole words of a
      clause of the corpus. */
  lemma VerifiedMemoIsSound(cfg: Config, past: seq<LedgerEntry>, c: Core, s: E.Setting, maxAttempts: Option<int>,
                            answers: nat -> DraftAnswers, pack: EvidencePack, corpus: PolicyCorpus)
    requires Loaded(cfg) && AgentId.Memo in cfg.mandates && s.maxAttempts >= 1
    requires ResolvePolicyCitation in s.table && GatedBy(s, pack, corpus)
    requires Sound(cfg, past, c) && c.state == Opened
    ensures var (c', t) := RunMemo(cfg, c, s, maxAttempts, pack, answers);
            && Sound(cfg, past, c') && c.chain <= c'.chain && HumanDecision !in EventsOf(c'.chain[|c.chain|..])
            && (t.Finished? ==> c'.state == Opened && c'.chain == c.chain + t.ledgered)
            && (t.Aborted? ==> c'.state == AgentTurn && t.why !in {BySession(IllegalTransition), BySession(UnknownAgent)})
            && (IsVerified(t) ==>
                  && t.memo.Some? && t.memo.value.status == MemoStatus.Draft
                  && t.memo.value.packDigest == pack.contentDigest && t.memo.value.corpusSha256 == corpus.sha256
                  && (forall x | x in t.memo.value.sentences ::
                        && x.evidenceIds <= pack.RecordIds()
                        && (x.role == Fact ==> x.evidenceIds != {})
                        && (x.role == PolicyGround ==> x.citation.Some?)
                        && (x.citation.Some? ==> Quotes(x.citation.value, corpus))))
  {
    hide Attempts, ResolveCitation, Quotes, EventsOf, GatedBy, Visits, AllClear;
    AttemptsContinue(cfg, past, c, 1, Ceiling(cfg, maxAttempts), s, None, answers, pack, corpus);
    var (c', t) := RunMemo(cfg, c, s, maxAttempts, pack, answers);
    assert c'.chain == c.chain + E.Between(c, c');
    if IsVerified(t) {
      forall x | x in t.memo.value.sentences && x.citation.Some?
        ensures Quotes(x.citation.value, corpus)
      {
        ResolvesMeaning(x.citation.value, corpus);
      }
    }
  }

  /** A memo turn returns, and so ends in OPEN, exactly when no attempt it comes to raises: the entities
      have distinct ids and a token their block does not contain, the instruction cannot be taken for a
      fence and, if it is sent, holds no field separator. What the model says decides only the
      instructions of later attempts. */
  lemma MemoTurnReturnsIff(cfg: Config, past: seq<LedgerEntry>, c: Core, s: E.Setting, maxAttempts: Option<int>,
                           answers: nat -> DraftAnswers, pack: EvidencePack, corpus: PolicyCorpus)
    requires Loaded(cfg) && AgentId.Memo in cfg.mandates && s.maxAttempts >= 1
    requires ResolvePolicyCitation in s.table && GatedBy(s, pack, corpus)
    requires Sound(cfg, past, c) && c.state == Opened
    ensures var (c', t) := RunMemo(cfg, c, s, maxAttempts, pack, answers);
            && (t.Finished? <==> c'.state == Opened)
            && (t.Finished? <==>
                  AllClear(cfg, Visits(cfg, c, 1, Ceiling(cfg, maxAttempts), s, pack, answers), answers))
  {
    hide Attempts, TurnFacts, EventsOf, GatedBy, Visits, AllClear;
    AttemptsContinue(cfg, past, c, 1, Ceiling(cfg, maxAttempts), s, None, answers, pack, corpus);
  }

  /** A fence prefix in the instruction, where a quoted failure detail can put it, raises out of the
      attempt before the model is asked. */
  lemma FencedInstructionAborts(cfg: Config, c: Core, s: E.Setting, pack: EvidencePack, a: DraftAnswers)
    requires AgentId.Memo in cfg.mandates && ResolvePolicyCitation in s.table && s.maxAttempts >= 1
    requires c.budgets.Keys == cfg.mandates.Keys && c.state == Opened
    requires CheckBudget(c.budgets[AgentId.Memo], 0, true) == None && Occurs(OPEN_PREFIX, a.instruction)
    ensures var (c', d) := AttemptStep(cfg, c, s, pack, a);
            d.DraftRaised? && !d.why.BySession? && c'.state == AgentTurn && c'.chain == c.chain
  {
    hide AskModel, Preflight, Presentable, NodeRecords, Occurs, Clean;
    PreflightIff(cfg.codec.hash, NodeRecords(pack), a.instruction);
    FenceIsUnpresentable(cfg.codec.hash, NodeRecords(pack), a.instruction);
  }

  lemma FenceIsUnpresentable(h: Hasher, records: seq<CaseRecord>, instruction: string)
    requires Occurs(OPEN_PREFIX, instruction)
    ensures !Presentable(h, records, instruction)
  {
    hide Occurs, Wrapped, TokenFrom, Distinct;
    WrapsIff(h, records);
  }

  /** What a turn raises before anything else: without a memo mandate an unknown agent, and outside OPEN, when the budget
      would allow it, an illegal transition; nothing is written either way. */
  lemma TurnNeedsMandateAndOpen(cfg: Config, c: Core, s: E.Setting, maxAttempts: Option<int>, pack: EvidencePack,
                                answers: nat -> DraftAnswers)
    requires s.maxAttempts >= 1 && c.budgets.Keys == cfg.mandates.Keys && ResolvePolicyCitation in s.table
    ensures var (c', t) := RunMemo(cfg, c, s, maxAttempts, pack, answers);
            && (AgentId.Memo !in cfg.mandates ==> c' == c && t == Aborted(BySession(UnknownAgent)))
            && (AgentId.Memo in cfg.mandates && Ceiling(cfg, maxAttempts) >= 1 && c.state != Opened
                && CheckBudget(c.budgets[AgentId.Memo], 0, true) == None ==>
                  c'.chain == c.chain && c'.state == c.state && t == Aborted(BySession(IllegalTransition)))
  {
    hide AskModel, Preflight, NodeRecords;
  }

  /** A good draft ends the turn: where an attempt delivers a supported memo, the turn returns there, verified,
      with exactly that memo and nothing left to do. */
  lemma GoodDraftIsVerified(cfg: Config, past: seq<LedgerEntry>, c: Core, k: nat, ceiling: int, s: E.Setting,
                            memo: Option<EnforcementMemo>, answers: nat -> DraftAnswers, pack: EvidencePack,
                            corpus: PolicyCorpus)
    requires Loaded(cfg) && AgentId.Memo in cfg.mandates && s.maxAttempts >= 1
    requires ResolvePolicyCitation in s.table && GatedBy(s, pack, corpus)
    requires Sound(cfg, past, c) && c.state == Opened && k <= ceiling && AttemptClears(cfg, c, pack, answers(k))
    requires E.Reached(c.budgets[AgentId.Memo], answers(k).estimate, answers(k).attempts, s.maxAttempts) && answers(k).draft.Some?
    requires Delivers(cfg.mandates[AgentId.Memo], s, answers(k).handler, pack, corpus)
    ensures var (c', t) := Attempts(cfg, c, k, ceiling, s, pack, memo, answers);
            && t.Finished? && IsVerified(t) && t.attempts == [AttemptRecord(k, Verified)] && t.stop == None
            && t.memo == Some(answers(k).handler.artifact.memo) && c'.state == Opened
  {
    hide AttemptStep, Supported, GatedBy, AttemptClears, Delivers;
    AttemptOutcomeIs(cfg, past, c, s, answers(k), pack, corpus);
    AttemptContinues(cfg, past, c, s, answers(k), pack, corpus);
    var (c', t) := Attempts(cfg, c, k, ceiling, s, pack, memo, answers);
    assert t.attempts[0].outcome == Verified;
  }

  /** A draft the gate refuses is not lost: it is the turn's memo from then on, and the loop goes on. */
  lemma RefusedDraftIsKept(cfg: Config, past: seq<LedgerEntry>, c: Core, k: nat, ceiling: int, s: E.Setting,
                           memo: Option<EnforcementMemo>, answers: nat -> DraftAnswers, pack: EvidencePack,
                           corpus: PolicyCorpus)
    requires Loaded(cfg) && AgentId.Memo in cfg.mandates && s.maxAttempts >= 1
    requires ResolvePolicyCitation in s.table && GatedBy(s, pack, corpus)
    requires Sound(cfg, past, c) && c.state == Opened && k <= ceiling && AttemptClears(cfg, c, pack, answers(k))
    requires E.Reached(c.budgets[AgentId.Memo], answers(k).estimate, answers(k).attempts, s.maxAttempts) && answers(k).draft.Some?
    requires !Delivers(cfg.mandates[AgentId.Memo], s, answers(k).handler, pack, corpus)
    ensures var c1 := AttemptStep(cfg, c, s, pack, answers(k)).0;
            && c1.budgets.Keys == cfg.mandates.Keys && c1.state == Opened
            && var (c', t) := Attempts(cfg, c, k, ceiling, s, pack, memo, answers);
               var (c2, rest) := Attempts(cfg, c1, k + 1, ceiling, s, pack, answers(k).draft, answers);
               && c' == c2 && (t.Finished? <==> rest.Finished?)
               && (t.Finished? ==> t.memo == rest.memo && t.attempts == [AttemptRecord(k, Rejected)] + rest.attempts)
  {
    hide AttemptStep, Supported, GatedBy, AttemptClears, Delivers;
    AttemptOutcomeIs(cfg, past, c, s, answers(k), pack, corpus);
    AttemptContinues(cfg, past, c, s, answers(k), pack, corpus);
    AttemptKeepsKeys(cfg, c, s, pack, answers(k));
  }

  // The memo a turn is left with, by its records: the last one delivered or rejected, if there is any.
  function LatestMemo(attempts: seq<AttemptRecord>, memo: Option<EnforcementMemo>, answers: nat -> DraftAnswers)
    : Option<EnforcementMemo>
    decreases |attempts|
  {
    if attempts == [] then memo
    else
      var a := answers(attempts[0].attempt);
      var next :=
        if attempts[0].outcome == Verified && a.handler.Returned? && a.handler.artifact.MemoArtifact?
        then Some(a.handler.artifact.memo)
        else if attempts[0].outcome == Rejected then a.draft
        else memo;
      LatestMemo(attempts[1..], next, answers)
  }

  /** What a turn hands back is the memo its records say: the last one delivered or rejected. */
  lemma {:induction false} TurnMemoIsLatest(cfg: Config, past: seq<LedgerEntry>, c: Core, k: nat, ceiling: int,
                                            s: E.Setting, memo: Option<EnforcementMemo>, answers: nat -> DraftAnswers,
                                            pack: EvidencePack, corpus: PolicyCorpus)
    requires Loaded(cfg) && AgentId.Memo in cfg.mandates && s.maxAttempts >= 1
    requires ResolvePolicyCitation in s.table && GatedBy(s, pack, corpus)
    requires Sound(cfg, past, c) && c.state == Opened
    ensures var t := Attempts(cfg, c, k, ceiling, s, pack, memo, answers).1;
            t.Finished? ==> t.memo == LatestMemo(t.attempts, memo, answers)
    decreases ceiling - k + 1
  {
    hide AttemptStep, Supported, GatedBy, AttemptClears;
    if k <= ceiling {
      AttemptContinues(cfg, past, c, s, answers(k), pack, corpus);
      var (c1, d) := AttemptStep(cfg, c, s, pack, answers(k));
      if d.Drafted? {
        AttemptOutcomeIs(cfg, past, c, s, answers(k), pack, corpus);
        var next := if d.memo.Some? then d.memo else memo;
        if d.stop == None && d.outcome != Verified {
          TurnMemoIsLatest(cfg, past, c1, k + 1, ceiling, s, next, answers, pack, corpus);
          var rest := Attempts(cfg, c1, k + 1, ceiling, s, pack, next, answers).1;
          if rest.Finished? {
            assert ([AttemptRecord(k, d.outcome)] + rest.attempts)[1..] == rest.attempts;
          }
        } else {
          assert [AttemptRecord(k, d.outcome)][1..] == [];
        }
      }
    }
  }

  // ------------------------------------------------------------------
  // The turn on objects
  // ------------------------------------------------------------------

  method CloseAttempt(session: Session, d: Draft) returns (r: Draft)
    requires session.Wired()
    modifies session`state
    ensures session.Wired() && (session.View(), r) == EndTurn(old(session.View()), d)
  {
    var ok := session.Transition(Opened);
    r := if ok then d else DraftRaised(BySession(IllegalTransition));
  }

  method SubmitDraft(session: Session, s: E.Setting, a: DraftAnswers, sent: seq<LedgerEntry>) returns (d: Draft)
    requires session.Wired() && AgentId.Memo in session.cfg.mandates && ResolvePolicyCitation in s.table
    modifies session`state, session`events, session`ticks, session.ledger
    ensures session.Wired() && (session.View(), d) == Submit(session.cfg, old(session.View()), s, a, sent)
  {
    hide Dispatch, NewEntry, Move;
    var proposed := session.AppendEvent(OutputProposed, Some(AgentId.Memo), VerdictPayload(a.draft.Some?));
    var ledgered := sent + [proposed.entry];
    if a.draft == None {
      d := CloseAttempt(session, Drafted(DraftRefused, ledgered, None, None));
      return;
    }
    var dispatched := DispatchProposal(session, CitationProposal(s.table), s.table, s.checks, a.handler);
    var o := dispatched.value;
    if o.decision == Executed && o.result.Some? && o.result.value.MemoArtifact? {
      d := CloseAttempt(session, Drafted(Verified, ledgered + o.ledgered, Some(o.result.value.memo), None));
    } else {
      d := CloseAttempt(session, Drafted(Rejected, ledgered + o.ledgered, a.draft, None));
    }
  }

  method AskForDraft(session: Session, s: E.Setting, a: DraftAnswers) returns (d: Draft)
    requires session.Wired() && AgentId.Memo in session.cfg.mandates
    requires ResolvePolicyCitation in s.table && s.maxAttempts >= 1
    modifies session`state, session`events, session`ticks, session.ledger, session.trackers
    ensures session.Wired() && (session.View(), d) == AskModel(session.cfg, old(session.View()), s, a)
  {
    hide Call, Submit, Move, Clean;
    var call, sent := CallModel(session, AgentId.Memo, a.estimate, Clean(a.instruction), s.maxAttempts, a.attempts);
    match call
    case CallRaised(error) => d := DraftRaised(BySession(error));
    case CallRefused(reason) => d := CloseAttempt(session, Drafted(NoModel, sent, None, Some(reason)));
    case CallFailed => d := CloseAttempt(session, Drafted(NoModel, sent, None, Some(DispatchError)));
    case CallAnswered(_) => d := SubmitDraft(session, s, a, sent);
  }

  method RunAttempt(session: Session, s: E.Setting, pack: EvidencePack, a: DraftAnswers) returns (d: Draft)
    requires session.Wired() && ResolvePolicyCitation in s.table && s.maxAttempts >= 1
    modifies session`state, session`events, session`ticks, session.ledger, session.trackers
    ensures session.Wired() && (session.View(), d) == AttemptStep(session.cfg, old(session.View()), s, pack, a)
  {
    hide AskModel, Preflight, NodeRecords;
    var start := session.StartTurn(AgentId.Memo, 0);
    if start.TurnRaised? {
      return DraftRaised(BySession(start.error));
    }
    if start.TurnRefused? {
      return Drafted(OutOfBudget, [], None, Some(start.reason));
    }
    var firewalled := RunPreflight(session.cfg.codec.hash, NodeRecords(pack), a.instruction);
    if firewalled.Some? {
      return DraftRaised(firewalled.value);
    }
    d := AskForDraft(session, s, a);
  }

  // What a loop that already gathered this much returns in the end.
  ghost function WithAttempts(rest: (Core, MemoTurn), attempts: seq<AttemptRecord>, ledgered: seq<LedgerEntry>): (Core, MemoTurn) {
    (rest.0, match rest.1
             case Aborted(why) => Aborted(why)
             case Finished(memo, more, entries, stop) => Finished(memo, attempts + more, ledgered + entries, stop))
  }

  lemma WithNoAttempts(rest: (Core, MemoTurn))
    ensures WithAttempts(rest, [], []) == rest
  {
    if rest.1.Finished? {
      assert [] + rest.1.attempts == rest.1.attempts && [] + rest.1.ledgered == rest.1.ledgered;
    }
  }

  // One iteration moves one attempt from what is left to what is gathered.
  lemma WithOneAttemptMore(cfg: Config, c: Core, k: nat, ceiling: int, s: E.Setting, pack: EvidencePack,
                           memo: Option<EnforcementMemo>, answers: nat -> DraftAnswers, attempts: seq<AttemptRecord>,
                           ledgered: seq<LedgerEntry>)
    requires s.maxAttempts >= 1 && c.budgets.Keys == cfg.mandates.Keys && ResolvePolicyCitation in s.table
    requires AttemptStep(cfg, c, s, pack, answers(k)).0.budgets.Keys == cfg.mandates.Keys
    ensures var before := WithAttempts(Attempts(cfg, c, k, ceiling, s, pack, memo, answers), attempts, ledgered);
            if k > ceiling then before == (c, Finished(memo, attempts, ledgered, None))
            else
              var (c1, d) := AttemptStep(cfg, c, s, pack, answers(k));
              match d
              case DraftRaised(why) => before == (c1, Aborted(why))
              case Drafted(outcome, more, latest, stop) =>
                var next := if latest.Some? then latest else memo;
                var records := attempts + [AttemptRecord(k, outcome)];
                if stop.Some? || outcome == Verified then before == (c1, Finished(next, records, ledgered + more, stop))
                else before == WithAttempts(Attempts(cfg, c1, k + 1, ceiling, s, pack, next, answers), records, ledgered + more)
  {
    hide AttemptStep;
    assert attempts + [] == attempts && ledgered + [] == ledgered;
    var (c1, d) := AttemptStep(cfg, c, s, pack, answers(k));
    if k <= ceiling && d.Drafted? && d.stop == None && d.outcome != Verified {
      var next := if d.memo.Some? then d.memo else memo;
      var rest := Attempts(cfg, c1, k + 1, ceiling, s, pack, next, answers).1;
      if rest.Finished? {
        assert attempts + ([AttemptRecord(k, d.outcome)] + rest.attempts)
            == attempts + [AttemptRecord(k, d.outcome)] + rest.attempts;
        assert ledgered + (d.ledgered + rest.ledgered) == ledgered + d.ledgered + rest.ledgered;
      }
    }
  }

  /** run_memo_turn over a session object. */
  method RunMemoTurn(session: Session, s: E.Setting, maxAttempts: Option<int>, pack: EvidencePack,
                     answers: nat -> DraftAnswers)
    returns (turn: MemoTurn)
    requires session.Wired() && ResolvePolicyCitation in s.table && s.maxAttempts >= 1
    modifies session`state, session`events, session`ticks, session.ledger, session.trackers
    ensures session.Wired()
    ensures (session.View(), turn) == RunMemo(session.cfg, old(session.View()), s, maxAttempts, pack, answers)
  {
    hide AttemptStep, Attempts, WithAttempts;
    if AgentId.Memo !in session.cfg.mandates {
      return Aborted(BySession(UnknownAgent));
    }
    var ceiling := if maxAttempts.Some? then maxAttempts.value else session.cfg.mandates[AgentId.Memo].maxSteps;
    ghost var whole := Attempts(session.cfg, session.View(), 1, ceiling, s, pack, None, answers);
    var memo, attempts, ledgered := None, [], [];
    var attempt := 1;
    WithNoAttempts(whole);
    while attempt <= ceiling
      invariant session.Wired() && attempt >= 1
      invariant whole == WithAttempts(Attempts(session.cfg, session.View(), attempt, ceiling, s, pack, memo, answers), attempts, ledgered)
      decreases ceiling - attempt
    {
      ghost var now := session.View();
      var d := RunAttempt(session, s, pack, answers(attempt));
      WithOneAttemptMore(session.cfg, now, attempt, ceiling, s, pack, memo, answers, attempts, ledgered);
      if d.DraftRaised? {
        return Aborted(d.why);
      }
      attempts := attempts + [AttemptRecord(attempt, d.outcome)];
      ledgered := ledgered + d.ledgered;
      if d.memo.Some? {
        memo := d.memo;
      }
      if d.stop.Some? || d.outcome == Verified {
        return Finished(memo, attempts, ledgered, d.stop);
      }
      attempt := attempt + 1;
    }
    turn := Finished(memo, attempts, ledgered, None);
    AttemptKeepsKeys(session.cfg, session.View(), s, pack, answers(attempt));
    WithOneAttemptMore(session.cfg, session.View(), attempt, ceiling, s, pack, memo, answers, attempts, ledgered);
  }
}
