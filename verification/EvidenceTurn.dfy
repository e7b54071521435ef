/** The evidence investigation: one ledgered hop at a time, with a human decision between each
    proposal and its execution (orchestrator/evidence_turn.py). */
module EvidenceTurns {
  import opened Prelude
  import opened Canonical
  import opened Mandates
  import opened Ledgers
  import opened Artifacts
  import opened Gates
  import opened Sessions
  import opened Adapters
  import opened Dispatching
  import opened DispatchProofs
  import opened Fences
  import opened Preflights
  import opened Runs
  import opened Records

  /** The analyst decides, or the review itself fails. */
  datatype Review = Approves | Declines | NoReview

  /** Everything that is not the orchestrator's during one hop: the instruction's text, the request's
      size, the model, the proposal check's verdict on what it said (the parameters of an accepted
      proposal, as they are hashed), the analyst, and the pivot's handler. */
  datatype HopAnswers = HopAnswers(
    instruction: string, estimate: nat, attempts: nat -> Attempt, proposal: Option<seq<string>>, review: Review,
    handler: HandlerAnswer)

  datatype HopOutcome = BudgetExhausted | ModelUnavailable | ProposalRefused | AnalystRejected | PivotExecuted | DispatchFailed

  datatype HopRecord = HopRecord(index: nat, outcome: HopOutcome)

  /** What one turn is run with. */
  datatype Setting = Setting(table: map<ToolId, ToolEntry>, checks: GateChecks, maxAttempts: nat)

  // sorted() over the scopes' string values.
  const SCOPE_ORDER: seq<DataScope> := [AccountMeta, Channel, Comment, EngagementEvent, InfraHint, Video]

  function NamesOf(order: seq<DataScope>, scopes: set<DataScope>): seq<string> {
    if order == [] then []
    else (if order[0] in scopes then [ScopeName(order[0])] else []) + NamesOf(order[1..], scopes)
  }

  /** required_scope_names. */
  function RequiredScopeNames(entry: ToolEntry): seq<string> { NamesOf(SCOPE_ORDER, entry.requiredScopes) }

  function PivotProposal(table: map<ToolId, ToolEntry>): ToolProposal
    requires RunParameterizedPivot in table
  {
    ToolProposal(Evidence, ToolName(RunParameterizedPivot), RequiredScopeNames(table[RunParameterizedPivot]))
  }

  /** What became of one hop: where the session is, the record kept, the entries written, the evidence pack
      if it grew, and why the loop stops if it does. A hop can also end in an exception. */
  datatype Hop =
    | Hopped(outcome: HopOutcome, ledgered: seq<LedgerEntry>, pack: Option<EvidencePack>, stop: Option<CloseReason>)
    | HopRaised(why: Raised)

  // end_turn or resume, closing a hop off.
  function Back(c: Core, hop: Hop): (Core, Hop) {
    var (c', ok) := Move(c, Opened);
    (c', if ok then hop else HopRaised(BySession(IllegalTransition)))
  }

  function HopStep(cfg: Config, c: Core, k: nat, s: Setting, pack: EvidencePack, a: HopAnswers): (Core, Hop)
    requires s.maxAttempts >= 1 && c.budgets.Keys == cfg.mandates.Keys && RunParameterizedPivot in s.table
  {
    var (c1, start) := BeginTurn(c, Evidence, 0);
    match start
    case TurnRaised(error) => (c1, HopRaised(BySession(error)))
    case TurnRefused(reason) => (c1, Hopped(BudgetExhausted, [], None, Some(reason)))
    case Started =>
      match Preflight(cfg.codec.hash, PackRecords(pack), a.instruction)
      case Some(why) => (c1, HopRaised(why))
      case None => Ask(cfg, c1, k, s, a)
  }

  // The model is asked; the block adds nothing to what keeps a request from being digested.
  function Ask(cfg: Config, c: Core, k: nat, s: Setting, a: HopAnswers): (Core, Hop)
    requires s.maxAttempts >= 1 && c.budgets.Keys == cfg.mandates.Keys && RunParameterizedPivot in s.table
  {
    var (asked, call, sent) := Call(cfg, c, Evidence, a.estimate, Clean(a.instruction), s.maxAttempts, a.attempts);
    match call
    case CallRaised(error) => (asked, HopRaised(BySession(error)))
    case CallRefused(reason) => Back(asked, Hopped(ModelUnavailable, sent, None, Some(reason)))
    case CallFailed => Back(asked, Hopped(ModelUnavailable, sent, None, Some(DispatchError)))
    case CallAnswered(_) => Judge(cfg, asked, k, s, a, sent)
  }

  // The model answered: its proposal is checked, and only an accepted one reaches the analyst.
  function Judge(cfg: Config, c: Core, k: nat, s: Setting, a: HopAnswers, sent: seq<LedgerEntry>): (Core, Hop)
    requires Evidence in cfg.mandates && RunParameterizedPivot in s.table
  {
    var verdict := if a.proposal.Some? then VerificationPass else VerificationFail;
    var body := VerdictPayload(a.proposal.Some?);
    var judged := Note(cfg, c, verdict, Some(Evidence), body);
    var ledgered := sent + [NewEntry(cfg, c, verdict, Some(Evidence), body)];
    if a.proposal == None then Back(judged, Hopped(ProposalRefused, ledgered, None, None))
    else
      var (waiting, ok) := Move(judged, AwaitingAnalyst);
      if !ok then (waiting, HopRaised(BySession(IllegalTransition)))
      else if !AllClean(a.proposal.value) then (waiting, HopRaised(BySession(ValueError)))
      else Decide(cfg, waiting, k, s, a, ledgered)
  }

  // The analyst decides, and only an approved pivot is dispatched.
  function Decide(cfg: Config, c: Core, k: nat, s: Setting, a: HopAnswers, ledgered: seq<LedgerEntry>): (Core, Hop)
    requires Evidence in cfg.mandates && RunParameterizedPivot in s.table
  {
    if a.review == NoReview then (c, HopRaised(ByReviewer))
    else
      var body := ReviewPayload(k, a.review == Approves);
      var decided := Note(cfg, c, HumanDecision, Some(Evidence), body);
      var soFar := ledgered + [NewEntry(cfg, c, HumanDecision, Some(Evidence), body)];
      if a.review == Declines then Back(decided, Hopped(AnalystRejected, soFar, None, None))
      else Execute(cfg, decided, s, a, soFar)
  }

  function Execute(cfg: Config, c: Core, s: Setting, a: HopAnswers, ledgered: seq<LedgerEntry>): (Core, Hop)
    requires Evidence in cfg.mandates && RunParameterizedPivot in s.table
  {
    var (after, o) := Dispatch(cfg, c.(ticks := c.ticks + 1), PivotProposal(s.table), s.table, s.checks, a.handler);
    if o.decision == Executed && o.result.Some? && o.result.value.PackArtifact? then
      Back(after, Hopped(PivotExecuted, ledgered + o.ledgered, Some(o.result.value.pack), None))
    else
      Back(after, Hopped(DispatchFailed, ledgered + o.ledgered, None, Some(DispatchError)))
  }

  // ------------------------------------------------------------------
  // What one hop keeps
  // ------------------------------------------------------------------

  /** c' continues c: the chain and the events only grew, and the account still holds. */
  ghost predicate Continues(cfg: Config, past: seq<LedgerEntry>, c: Core, c': Core) {
    Sound(cfg, past, c) && Sound(cfg, past, c') && c.chain <= c'.chain && c.events <= c'.events
  }

  /** The entries written between two states of one session. */
  function Between(c: Core, c': Core): seq<LedgerEntry>
    requires |c.chain| <= |c'.chain|
  {
    c'.chain[|c.chain|..]
  }

  predicate IsApproval(r: RecordedEvent) {
    r.entry.event == HumanDecision && r.payload.ReviewPayload? && r.payload.approved
  }

  /** From one position on, every tool call comes directly after an approving human decision. */
  ghost predicate Approved(events: seq<RecordedEvent>, from: nat) {
    forall i | from <= i < |events| && events[i].entry.event == ToolCalled :: i > from && IsApproval(events[i - 1])
  }

  // The recorded events of a stretch carry the entries of that stretch.
  lemma StretchEvents(cfg: Config, past: seq<LedgerEntry>, c: Core, c': Core)
    requires Continues(cfg, past, c, c')
    ensures |c'.events| == |c.events| + |Between(c, c')|
    ensures forall i | |c.events| <= i < |c'.events| :: c'.events[i].entry == Between(c, c')[i - |c.events|]
  {
  }

  lemma QuietIsApproved(cfg: Config, past: seq<LedgerEntry>, c: Core, c': Core)
    requires Continues(cfg, past, c, c') && ToolCalled !in EventsOf(Between(c, c'))
    ensures Approved(c'.events, |c.events|)
  {
    StretchEvents(cfg, past, c, c');
    forall i | |c.events| <= i < |c'.events| ensures c'.events[i].entry.event != ToolCalled {
      assert EventsOf(Between(c, c'))[i - |c.events|] == c'.events[i].entry.event;
    }
  }

  lemma ContinuesTrans(cfg: Config, past: seq<LedgerEntry>, c: Core, d: Core, e: Core)
    requires Continues(cfg, past, c, d) && Continues(cfg, past, d, e)
    ensures Continues(cfg, past, c, e) && Between(c, e) == Between(c, d) + Between(d, e)
    ensures Approved(d.events, |c.events|) && Approved(e.events, |d.events|) ==> Approved(e.events, |c.events|)
  {
    if Approved(d.events, |c.events|) && Approved(e.events, |d.events|) {
      forall i | |c.events| <= i < |e.events| && e.events[i].entry.event == ToolCalled
        ensures i > |c.events| && IsApproval(e.events[i - 1])
      {
        if i < |d.events| {
          assert d.events[i] == e.events[i];
        }
      }
    }
  }

  lemma NoteContinues(cfg: Config, past: seq<LedgerEntry>, c: Core, event: EventType, agent: AgentId, p: Payload)
    requires agent in cfg.mandates && Sound(cfg, past, c)
    ensures var c' := Note(cfg, c, event, Some(agent), p);
            && Continues(cfg, past, c, c') && c'.state == c.state && c'.budgets == c.budgets
            && Between(c, c') == [NewEntry(cfg, c, event, Some(agent), p)]
            && EventsOf(Between(c, c')) == [event] && NewEntry(cfg, c, event, Some(agent), p).event == event
            && c'.events == c.events + [RecordedEvent(NewEntry(cfg, c, event, Some(agent), p), p)]
  {
    hide NewEntry;
    NoteAdds(cfg, past, c, event, agent, p);
    var c' := Note(cfg, c, event, Some(agent), p);
    assert Between(c, c') == [NewEntry(cfg, c, event, Some(agent), p)];
    assert EventsOf([NewEntry(cfg, c, event, Some(agent), p)]) == [event];
  }

  // A dispatched tool is called first thing or not at all.
  lemma DispatchContinues(cfg: Config, past: seq<LedgerEntry>, c: Core, p: ToolProposal, table: map<ToolId, ToolEntry>,
                          checks: GateChecks, answer: HandlerAnswer)
    requires Loaded(cfg) && p.agent in cfg.mandates && Sound(cfg, past, c)
    ensures var (c', o) := Dispatch(cfg, c, p, table, checks, answer);
            && Continues(cfg, past, c, c') && Between(c, c') == o.ledgered && c'.state == c.state && c'.budgets == c.budgets
            && (o.decision == Executed ==> o.result.Some?)
            && (forall i | |c.events| < i < |c'.events| :: c'.events[i].entry.event != ToolCalled)
  {
    hide Dispatch, ResolveTool;
    DispatchTrace(cfg, past, c, p, table, checks, answer);
    var (c', o) := Dispatch(cfg, c, p, table, checks, answer);
    assert Between(c, c') == o.ledgered;
    StretchEvents(cfg, past, c, c');
    OnlyFirstCalls(cfg, p, table, checks, answer, o);
    forall i | |c.events| < i < |c'.events| ensures c'.events[i].entry.event != ToolCalled {
      assert EventsOf(o.ledgered)[i - |c.events|] == c'.events[i].entry.event;
    }
  }

  lemma OnlyFirstCalls(cfg: Config, p: ToolProposal, table: map<ToolId, ToolEntry>, checks: GateChecks,
                       answer: HandlerAnswer, o: DispatchOutcome)
    requires p.agent in cfg.mandates
    requires o.refusal == RefusalFor(cfg.mandates[p.agent], p, table)
    requires o.refusal.Some? ==> EventsOf(o.ledgered) == RefusalEvents(cfg.mandates[p.agent], p, table)
    requires o.refusal == None ==>
               ExecutionTrace(cfg, p.agent, table[ResolveTool(p.toolName).value].consequence, checks, answer, o)
    ensures forall i | 0 < i < |EventsOf(o.ledgered)| :: EventsOf(o.ledgered)[i] != ToolCalled
  {
    hide ResolveTool, NamesAllowed, EventsOf;
  }

  // Where a hop ends, whatever happens: back in OPEN with a report of what was sent before and what it
  // wrote since, or in the turn it raised from.
  ghost predicate EndsAfter(c: Core, c': Core, sent: seq<LedgerEntry>, hop: Hop)
    requires |c.chain| <= |c'.chain|
  {
    match hop
    case Hopped(outcome, ledgered, grown, stop) =>
      && c'.state == Opened && ledgered == sent + Between(c, c')
      && (stop.Some? <==> outcome in {BudgetExhausted, ModelUnavailable, DispatchFailed})
      && (grown.Some? <==> outcome == PivotExecuted)
    case HopRaised(why) =>
      c'.state in {AgentTurn, AwaitingAnalyst} && why !in {BySession(IllegalTransition), BySession(UnknownAgent)}
  }

  lemma ExecuteContinues(cfg: Config, past: seq<LedgerEntry>, c: Core, s: Setting, a: HopAnswers, ledgered: seq<LedgerEntry>)
    requires Loaded(cfg) && Evidence in cfg.mandates && RunParameterizedPivot in s.table
    requires Sound(cfg, past, c) && c.state == AwaitingAnalyst
    ensures var (c', hop) := Execute(cfg, c, s, a, ledgered);
            && Continues(cfg, past, c, c') && EndsAfter(c, c', ledgered, hop) && hop.Hopped?
            && c'.budgets == c.budgets
            && (forall i | |c.events| < i < |c'.events| :: c'.events[i].entry.event != ToolCalled)
  {
    hide NewEntry, Dispatch, PivotProposal;
    var ready := c.(ticks := c.ticks + 1);
    PivotIsEvidence(s.table);
    DispatchContinues(cfg, past, ready, PivotProposal(s.table), s.table, s.checks, a.handler);
    var (after, o) := Dispatch(cfg, ready, PivotProposal(s.table), s.table, s.checks, a.handler);
    assert Continues(cfg, past, c, after);
  }

  lemma DecideContinues(cfg: Config, past: seq<LedgerEntry>, c: Core, k: nat, s: Setting, a: HopAnswers,
                        ledgered: seq<LedgerEntry>)
    requires Loaded(cfg) && Evidence in cfg.mandates && RunParameterizedPivot in s.table
    requires Sound(cfg, past, c) && c.state == AwaitingAnalyst
    ensures var (c', hop) := Decide(cfg, c, k, s, a, ledgered);
            && Continues(cfg, past, c, c') && Approved(c'.events, |c.events|)
            && EndsAfter(c, c', ledgered, hop)
            && (hop.Hopped? <==> a.review != NoReview)
  {
    hide NewEntry, Execute, Approved;
    assert Between(c, c) == [];
    QuietIsApproved(cfg, past, c, c);
    if a.review != NoReview {
      var body := ReviewPayload(k, a.review == Approves);
      NoteContinues(cfg, past, c, HumanDecision, Evidence, body);
      QuietIsApproved(cfg, past, c, Note(cfg, c, HumanDecision, Some(Evidence), body));
      if a.review == Approves {
        ApprovedContinues(cfg, past, c, k, s, a, ledgered);
      }
    }
  }

  lemma ApprovedContinues(cfg: Config, past: seq<LedgerEntry>, c: Core, k: nat, s: Setting, a: HopAnswers,
                          ledgered: seq<LedgerEntry>)
    requires Loaded(cfg) && Evidence in cfg.mandates && RunParameterizedPivot in s.table
    requires Sound(cfg, past, c) && c.state == AwaitingAnalyst
    ensures var e := NewEntry(cfg, c, HumanDecision, Some(Evidence), ReviewPayload(k, true));
            var decided := Note(cfg, c, HumanDecision, Some(Evidence), ReviewPayload(k, true));
            var (c', hop) := Execute(cfg, decided, s, a, ledgered + [e]);
            && Continues(cfg, past, c, c') && Approved(c'.events, |c.events|)
            && EndsAfter(c, c', ledgered, hop) && hop.Hopped?
  {
    hide NewEntry, Execute, Sound;
    var body := ReviewPayload(k, true);
    var decided := Note(cfg, c, HumanDecision, Some(Evidence), body);
    var e := NewEntry(cfg, c, HumanDecision, Some(Evidence), body);
    NoteContinues(cfg, past, c, HumanDecision, Evidence, body);
    ExecuteContinues(cfg, past, decided, s, a, ledgered + [e]);
    var (after, hop) := Execute(cfg, decided, s, a, ledgered + [e]);
    ContinuesTrans(cfg, past, c, decided, after);
    assert after.events[|c.events|] == decided.events[|c.events|] == RecordedEvent(e, body);
    CallAfterApproval(after.events, |c.events|);
    assert ledgered + [e] + Between(decided, after) == ledgered + ([e] + Between(decided, after));
  }

  lemma CallAfterApproval(events: seq<RecordedEvent>, n: nat)
    requires n < |events| && IsApproval(events[n])
    requires forall i | n + 1 < i < |events| :: events[i].entry.event != ToolCalled
    ensures Approved(events, n)
  {
  }

  lemma PivotIsEvidence(table: map<ToolId, ToolEntry>)
    requires RunParameterizedPivot in table
    ensures PivotProposal(table).agent == Evidence
  {
  }

  // An accepted proposal gets through the review: its parameters can be hashed and the analyst answers.
  predicate Reviewable(a: HopAnswers) {
    a.proposal.Some? ==> AllClean(a.proposal.value) && a.review != NoReview
  }

  lemma JudgeContinues(cfg: Config, past: seq<LedgerEntry>, c: Core, k: nat, s: Setting, a: HopAnswers,
                       sent: seq<LedgerEntry>)
    requires Loaded(cfg) && Evidence in cfg.mandates && RunParameterizedPivot in s.table
    requires Sound(cfg, past, c) && c.state == AgentTurn
    ensures var (c', hop) := Judge(cfg, c, k, s, a, sent);
            && Continues(cfg, past, c, c') && Approved(c'.events, |c.events|)
            && EndsAfter(c, c', sent, hop) && (hop.Hopped? <==> Reviewable(a))
  {
    hide NewEntry, Decide, AllClean;
    var verdict := if a.proposal.Some? then VerificationPass else VerificationFail;
    var body := VerdictPayload(a.proposal.Some?);
    var judged := Note(cfg, c, verdict, Some(Evidence), body);
    NoteContinues(cfg, past, c, verdict, Evidence, body);
    QuietIsApproved(cfg, past, c, judged);
    if a.proposal.Some? {
      var e := NewEntry(cfg, c, verdict, Some(Evidence), body);
      var waiting := judged.(state := AwaitingAnalyst);
      assert Continues(cfg, past, c, waiting) && Between(c, waiting) == Between(c, judged);
      if AllClean(a.proposal.value) {
        DecideContinues(cfg, past, waiting, k, s, a, sent + [e]);
        var (c', hop) := Decide(cfg, waiting, k, s, a, sent + [e]);
        ContinuesTrans(cfg, past, c, waiting, c');
        assert sent + [e] + Between(waiting, c') == sent + ([e] + Between(waiting, c'));
      }
    }
  }

  // Whether anything is left of the token budget and the estimate fits in it.
  predicate Affordable(b: Budget, estimate: nat) {
    b.tokensSpent < b.tokenBudget && b.tokensSpent + estimate <= b.tokenBudget
  }

  predicate Answered(attempts: nat -> Attempt, maxAttempts: nat)
    requires maxAttempts >= 1
  {
    attempts(StopsAt(attempts, maxAttempts, 0)).Response?
  }

  // A request that is sent can be digested, and what comes back gets through the review.
  predicate AskClears(c: Core, s: Setting, a: HopAnswers)
    requires s.maxAttempts >= 1 && Evidence in c.budgets
  {
    Affordable(c.budgets[Evidence], a.estimate) ==>
      Clean(a.instruction) && (Answered(a.attempts, s.maxAttempts) ==> Reviewable(a))
  }

  lemma AskContinues(cfg: Config, past: seq<LedgerEntry>, c: Core, k: nat, s: Setting, a: HopAnswers)
    requires Loaded(cfg) && Evidence in cfg.mandates && RunParameterizedPivot in s.table && s.maxAttempts >= 1
    requires Sound(cfg, past, c) && c.state == AgentTurn
    ensures var (c', hop) := Ask(cfg, c, k, s, a);
            && Continues(cfg, past, c, c') && Approved(c'.events, |c.events|)
            && EndsAfter(c, c', [], hop) && (hop.Hopped? <==> AskClears(c, s, a))
  {
    hide Call, Judge, NewEntry, Reviewable, Clean;
    CallKeepsSound(cfg, past, c, Evidence, a.estimate, Clean(a.instruction), s.maxAttempts, a.attempts);
    CallAnswers(cfg, c, Evidence, a.estimate, Clean(a.instruction), s.maxAttempts, a.attempts);
    var (asked, call, sent) := Call(cfg, c, Evidence, a.estimate, Clean(a.instruction), s.maxAttempts, a.attempts);
    assert Between(c, asked) == sent;
    QuietIsApproved(cfg, past, c, asked);
    assert [] + sent == sent;
    if call.CallAnswered? {
      JudgeContinues(cfg, past, asked, k, s, a, sent);
      var (c', hop) := Judge(cfg, asked, k, s, a, sent);
      ContinuesTrans(cfg, past, c, asked, c');
      assert [] + (sent + Between(asked, c')) == sent + Between(asked, c');
    }
  }

  /** When the turn begins at all, what keeps a hop from raising: records that can be presented under
      its instruction, and a request and a review that go through as far as they are reached. */
  ghost predicate HopClears(cfg: Config, c: Core, s: Setting, pack: EvidencePack, a: HopAnswers)
    requires s.maxAttempts >= 1 && c.budgets.Keys == cfg.mandates.Keys && Evidence in cfg.mandates
  {
    CheckBudget(c.budgets[Evidence], 0, true) == None ==>
      Presentable(cfg.codec.hash, PackRecords(pack), a.instruction) && AskClears(c, s, a)
  }

  /** One hop from OPEN, whatever the model, the analyst, the handler and the pack: it calls a tool only
      directly after the analyst approved and never takes an illegal edge; it comes back to OPEN with
      a report of exactly the entries it wrote precisely when nothing on its way raises. */
  lemma HopContinues(cfg: Config, past: seq<LedgerEntry>, c: Core, k: nat, s: Setting, pack: EvidencePack, a: HopAnswers)
    requires Loaded(cfg) && Evidence in cfg.mandates && RunParameterizedPivot in s.table && s.maxAttempts >= 1
    requires Sound(cfg, past, c) && c.state == Opened
    ensures var (c', hop) := HopStep(cfg, c, k, s, pack, a);
            && Continues(cfg, past, c, c') && Approved(c'.events, |c.events|)
            && EndsAfter(c, c', [], hop) && (hop.Hopped? <==> HopClears(cfg, c, s, pack, a))
  {
    hide Ask, Preflight, Presentable, PackRecords, AskClears, NewEntry;
    var (c1, start) := BeginTurn(c, Evidence, 0);
    assert Between(c, c1) == [];
    assert Continues(cfg, past, c, c1);
    QuietIsApproved(cfg, past, c, c1);
    PreflightIff(cfg.codec.hash, PackRecords(pack), a.instruction);
    if start.Started? && Preflight(cfg.codec.hash, PackRecords(pack), a.instruction) == None {
      AskContinues(cfg, past, c1, k, s, a);
      SameClears(c, c1, s, a);
      ContinuesTrans(cfg, past, c, c1, Ask(cfg, c1, k, s, a).0);
      assert [] + Between(c1, Ask(cfg, c1, k, s, a).0) == Between(c, Ask(cfg, c1, k, s, a).0);
    }
  }

  // Booking the step moves no token.
  lemma SameClears(c: Core, d: Core, s: Setting, a: HopAnswers)
    requires s.maxAttempts >= 1 && Evidence in c.budgets && Evidence in d.budgets
    requires d.budgets[Evidence].tokensSpent == c.budgets[Evidence].tokensSpent
    requires d.budgets[Evidence].tokenBudget == c.budgets[Evidence].tokenBudget
    ensures AskClears(c, s, a) <==> AskClears(d, s, a)
  {
  }

  lemma CallAnswers(cfg: Config, c: Core, agent: AgentId, estimate: nat, clean: bool, maxAttempts: nat,
                    answers: nat -> Attempt)
    requires maxAttempts >= 1 && c.budgets.Keys == cfg.mandates.Keys && agent in cfg.mandates
    ensures var call := Call(cfg, c, agent, estimate, clean, maxAttempts, answers).1;
            var fits := Affordable(c.budgets[agent], estimate);
            && (call.CallRaised? <==> fits && !clean) && (call.CallRaised? ==> call.error == ValueError)
            && (call.CallAnswered? <==> fits && clean && Answered(answers, maxAttempts))
            && (call.CallRefused? <==> !fits)
  {
    hide NewEntry;
  }

  // ------------------------------------------------------------------
  // The whole turn
  // ------------------------------------------------------------------

  /** What a turn returns: every hop's record, every entry written, the grown pack, and why it stopped. */
  datatype Turn =
    | Turned(hops: seq<HopRecord>, ledgered: seq<LedgerEntry>, pack: EvidencePack, stop: Option<CloseReason>)
    | TurnAborted(why: Raised)

  lemma CallKeepsKeys(cfg: Config, c: Core, agent: AgentId, estimate: nat, clean: bool, maxAttempts: nat,
                      answers: nat -> Attempt)
    requires maxAttempts >= 1 && c.budgets.Keys == cfg.mandates.Keys
    ensures Call(cfg, c, agent, estimate, clean, maxAttempts, answers).0.budgets.Keys == cfg.mandates.Keys
  {
    hide NewEntry;
  }

  lemma HopKeepsKeys(cfg: Config, c: Core, k: nat, s: Setting, pack: EvidencePack, a: HopAnswers)
    requires s.maxAttempts >= 1 && c.budgets.Keys == cfg.mandates.Keys && RunParameterizedPivot in s.table
    ensures HopStep(cfg, c, k, s, pack, a).0.budgets.Keys == cfg.mandates.Keys
  {
    hide NewEntry, Call, Dispatch, PivotProposal, Preflight, PackRecords, Clean, AllClean;
    var (c1, start) := BeginTurn(c, Evidence, 0);
    if start.Started? {
      CallKeepsKeys(cfg, c1, Evidence, a.estimate, Clean(a.instruction), s.maxAttempts, a.attempts);
      PivotIsEvidence(s.table);
      forall d: Core
        ensures Dispatch(cfg, d, PivotProposal(s.table), s.table, s.checks, a.handler).0.budgets == d.budgets
      {
        DispatchKeepsBudgets(cfg, d, PivotProposal(s.table), s.table, s.checks, a.handler);
      }
    }
  }

  /** The loop from attempt k on; answers says what the outside does at each attempt. */
  function Hops(cfg: Config, c: Core, k: nat, ceiling: int, s: Setting, pack: EvidencePack, answers: nat -> HopAnswers)
    : (Core, Turn)
    requires s.maxAttempts >= 1 && c.budgets.Keys == cfg.mandates.Keys && RunParameterizedPivot in s.table
    decreases ceiling - k + 1
  {
    if k > ceiling then (c, Turned([], [], pack, None))
    else
      var (c1, hop) := HopStep(cfg, c, k, s, pack, answers(k));
      HopKeepsKeys(cfg, c, k, s, pack, answers(k));
      match hop
      case HopRaised(why) => (c1, TurnAborted(why))
      case Hopped(outcome, ledgered, grown, stop) =>
        var record := HopRecord(k, outcome);
        var next := if grown.Some? then grown.value else pack;
        if stop.Some? then (c1, Turned([record], ledgered, next, stop))
        else
          var (c2, rest) := Hops(cfg, c1, k + 1, ceiling, s, next, answers);
          (c2, match rest
               case TurnAborted(why) => TurnAborted(why)
               case Turned(hops, more, final, reason) => Turned([record] + hops, ledgered + more, final, reason))
  }

  /** The ceiling is the mandate's step budget unless the caller names another. */
  function EvidenceTurn(cfg: Config, c: Core, s: Setting, maxHops: Option<int>, seed: EvidencePack,
                        answers: nat -> HopAnswers): (Core, Turn)
    requires s.maxAttempts >= 1 && c.budgets.Keys == cfg.mandates.Keys && RunParameterizedPivot in s.table
  {
    if Evidence !in cfg.mandates then (c, TurnAborted(BySession(UnknownAgent)))
    else
      var ceiling := if maxHops.Some? then maxHops.value else cfg.mandates[Evidence].maxSteps;
      Hops(cfg, c.(ticks := c.ticks + 1), 1, ceiling, s, seed, answers)
  }

  predicate Continuing(outcome: HopOutcome) { outcome in {ProposalRefused, AnalystRejected, PivotExecuted} }

  /** One record per attempt, in order; only the last can be one that stops the turn, and it does
      exactly when the turn names a reason. */
  ghost predicate Recorded(hops: seq<HopRecord>, k: nat, ceiling: int, stop: Option<CloseReason>) {
    && (forall i | 0 <= i < |hops| :: hops[i].index == k + i)
    && (forall i | 0 <= i < |hops| - 1 :: Continuing(hops[i].outcome))
    && |hops| <= Max(0, ceiling - k + 1)
    && (stop == None ==> |hops| == Max(0, ceiling - k + 1) && forall i | 0 <= i < |hops| :: Continuing(hops[i].outcome))
    && (stop.Some? ==> |hops| > 0 && !Continuing(hops[|hops| - 1].outcome))
  }

  // Where a turn ends, whatever happens.
  ghost predicate TurnEnds(c: Core, c': Core, turn: Turn, k: nat, ceiling: int)
    requires |c.chain| <= |c'.chain|
  {
    match turn
    case Turned(hops, ledgered, pack, stop) =>
      c'.state == Opened && ledgered == Between(c, c') && Recorded(hops, k, ceiling, stop)
    case TurnAborted(why) =>
      c'.state in {AgentTurn, AwaitingAnalyst} && why !in {BySession(IllegalTransition), BySession(UnknownAgent)}
  }

  /** An iteration of the loop: the session and the pack it begins with. */
  datatype Visit = Visit(core: Core, index: nat, pack: EvidencePack)

  /** The iterations a turn comes to. */
  function Visits(cfg: Config, c: Core, k: nat, ceiling: int, s: Setting, pack: EvidencePack, answers: nat -> HopAnswers)
    : (r: seq<Visit>)
    requires s.maxAttempts >= 1 && c.budgets.Keys == cfg.mandates.Keys && RunParameterizedPivot in s.table
    ensures forall i | 0 <= i < |r| :: r[i].core.budgets.Keys == cfg.mandates.Keys
    decreases ceiling - k + 1
  {
    hide HopStep;
    if k > ceiling then []
    else
      var (c1, hop) := HopStep(cfg, c, k, s, pack, answers(k));
      HopKeepsKeys(cfg, c, k, s, pack, answers(k));
      [Visit(c, k, pack)] +
      if hop.HopRaised? || hop.stop.Some? then []
      else Visits(cfg, c1, k + 1, ceiling, s, if hop.pack.Some? then hop.pack.value else pack, answers)
  }

  /** No iteration the turn comes to raises. */
  ghost predicate AllClear(cfg: Config, visits: seq<Visit>, s: Setting, answers: nat -> HopAnswers)
    requires s.maxAttempts >= 1 && Evidence in cfg.mandates
    requires forall i | 0 <= i < |visits| :: visits[i].core.budgets.Keys == cfg.mandates.Keys
  {
    forall i | 0 <= i < |visits| ::
      HopClears(cfg, visits[i].core, s, visits[i].pack, answers(visits[i].index))
  }

  lemma AllClearCons(cfg: Config, first: Visit, rest: seq<Visit>, s: Setting, answers: nat -> HopAnswers)
    requires s.maxAttempts >= 1 && Evidence in cfg.mandates && first.core.budgets.Keys == cfg.mandates.Keys
    requires forall i | 0 <= i < |rest| :: rest[i].core.budgets.Keys == cfg.mandates.Keys
    ensures forall i | 0 <= i < |[first] + rest| :: ([first] + rest)[i].core.budgets.Keys == cfg.mandates.Keys
    ensures AllClear(cfg, [first] + rest, s, answers) <==>
              HopClears(cfg, first.core, s, first.pack, answers(first.index)) && AllClear(cfg, rest, s, answers)
  {
    hide HopClears;
    var all := [first] + rest;
    if AllClear(cfg, all, s, answers) {
      assert HopClears(cfg, all[0].core, s, all[0].pack, answers(all[0].index));
      forall i | 0 <= i < |rest| ensures HopClears(cfg, rest[i].core, s, rest[i].pack, answers(rest[i].index)) {
        assert all[i + 1] == rest[i];
      }
    }
  }

  lemma {:induction false} HopsContinue(cfg: Config, past: seq<LedgerEntry>, c: Core, k: nat, ceiling: int, s: Setting,
                                        pack: EvidencePack, answers: nat -> HopAnswers)
    requires Loaded(cfg) && Evidence in cfg.mandates && RunParameterizedPivot in s.table && s.maxAttempts >= 1
    requires Sound(cfg, past, c) && c.state == Opened
    ensures var (c', turn) := Hops(cfg, c, k, ceiling, s, pack, answers);
            && Continues(cfg, past, c, c') && Approved(c'.events, |c.events|) && TurnEnds(c, c', turn, k, ceiling)
            && (turn.Turned? <==> AllClear(cfg, Visits(cfg, c, k, ceiling, s, pack, answers), s, answers))
    decreases ceiling - k + 1
  {
    hide HopStep, Approved, HopClears, AllClear;
    if k > ceiling {
      assert Between(c, c) == [];
      QuietIsApproved(cfg, past, c, c);
      NothingToClear(cfg, s, answers);
    } else {
      HopContinues(cfg, past, c, k, s, pack, answers(k));
      var (c1, hop) := HopStep(cfg, c, k, s, pack, answers(k));
      NothingToClear(cfg, s, answers);
      if hop.Hopped? && hop.stop == None {
        var next := if hop.pack.Some? then hop.pack.value else pack;
        assert [] + Between(c, c1) == Between(c, c1);
        HopsContinue(cfg, past, c1, k + 1, ceiling, s, next, answers);
        var (c2, rest) := Hops(cfg, c1, k + 1, ceiling, s, next, answers);
        ContinuesTrans(cfg, past, c, c1, c2);
        AllClearCons(cfg, Visit(c, k, pack), Visits(cfg, c1, k + 1, ceiling, s, next, answers), s, answers);
        if rest.Turned? {
          RecordedCons(HopRecord(k, hop.outcome), rest.hops, k, ceiling, rest.stop);
        }
      } else {
        assert [] + Between(c, c1) == Between(c, c1);
        AllClearCons(cfg, Visit(c, k, pack), [], s, answers);
      }
    }
  }

  lemma NothingToClear(cfg: Config, s: Setting, answers: nat -> HopAnswers)
    requires s.maxAttempts >= 1 && Evidence in cfg.mandates
    ensures AllClear(cfg, [], s, answers)
  {
  }

  lemma RecordedCons(first: HopRecord, rest: seq<HopRecord>, k: nat, ceiling: int, stop: Option<CloseReason>)
    requires k <= ceiling && first.index == k && Continuing(first.outcome) && Recorded(rest, k + 1, ceiling, stop)
    ensures Recorded([first] + rest, k, ceiling, stop)
  {
  }

  // How many iterations a turn may make.
  function Ceiling(cfg: Config, maxHops: Option<int>): int
    requires Evidence in cfg.mandates
  {
    if maxHops.Some? then maxHops.value else cfg.mandates[Evidence].maxSteps
  }

  // The state the loop starts from: the seed's timestamp has been read.
  function Seeded(c: Core): Core { c.(ticks := c.ticks + 1) }

  /** A turn started in OPEN, whatever the model, the analyst, the handlers and the packs do: every tool
      call in the chain comes directly after an approving human decision, the session's account of
      the chain holds, and no illegal transition is ever attempted. A turn that returns ends in OPEN,
      reports exactly the entries it wrote and keeps one record per attempt. */
  lemma EvidenceTurnIsSafe(cfg: Config, past: seq<LedgerEntry>, c: Core, s: Setting, maxHops: Option<int>,
                           seed: EvidencePack, answers: nat -> HopAnswers)
    requires Loaded(cfg) && Evidence in cfg.mandates && RunParameterizedPivot in s.table && s.maxAttempts >= 1
    requires Sound(cfg, past, c) && c.state == Opened
    ensures var (c', turn) := EvidenceTurn(cfg, c, s, maxHops, seed, answers);
            && Sound(cfg, past, c') && c.chain <= c'.chain
            && (forall i | |c.chain| <= i < |c'.chain| && c'.chain[i].event == ToolCalled ::
                  i > |c.chain| && c'.chain[i - 1].event == HumanDecision
                  && c'.events[i - 1 - |past|].payload.ReviewPayload? && c'.events[i - 1 - |past|].payload.approved)
            && (turn.Turned? ==>
                  && c'.state == Opened && c'.chain == c.chain + turn.ledgered
                  && Recorded(turn.hops, 1, Ceiling(cfg, maxHops), turn.stop))
            && (turn.TurnAborted? ==>
                  && turn.why !in {BySession(IllegalTransition), BySession(UnknownAgent)}
                  && c'.state in {AgentTurn, AwaitingAnalyst})
  {
    hide Hops, Recorded, Visits, AllClear, Approved, Continues;
    HopsContinue(cfg, past, Seeded(c), 1, Ceiling(cfg, maxHops), s, seed, answers);
    var (c', turn) := EvidenceTurn(cfg, c, s, maxHops, seed, answers);
    SeededContinues(cfg, past, c, c');
    CallsFollowApprovals(cfg, past, c, c');
    assert Between(c, c') == Between(Seeded(c), c');
  }

  lemma SeededContinues(cfg: Config, past: seq<LedgerEntry>, c: Core, c': Core)
    requires Sound(cfg, past, c) && Continues(cfg, past, Seeded(c), c')
    ensures Continues(cfg, past, c, c') && c'.chain == c.chain + Between(c, c')
  {
  }

  // What holds of the recorded events holds of the chain.
  lemma CallsFollowApprovals(cfg: Config, past: seq<LedgerEntry>, c: Core, c': Core)
    requires Continues(cfg, past, c, c') && Approved(c'.events, |c.events|)
    ensures forall i | |c.chain| <= i < |c'.chain| && c'.chain[i].event == ToolCalled ::
              i > |c.chain| && c'.chain[i - 1].event == HumanDecision
              && c'.events[i - 1 - |past|].payload.ReviewPayload? && c'.events[i - 1 - |past|].payload.approved
  {
    forall i | |c.chain| <= i < |c'.chain| && c'.chain[i].event == ToolCalled
      ensures i > |c.chain| && c'.chain[i - 1].event == HumanDecision
      ensures c'.events[i - 1 - |past|].payload.ReviewPayload? && c'.events[i - 1 - |past|].payload.approved
    {
      assert c'.events[i - |past|].entry == c'.chain[i];
      assert i - |past| > |c.events|;
      assert c'.events[i - 1 - |past|].entry == c'.chain[i - 1];
    }
  }

  /** A turn returns, and so ends in OPEN, exactly when no iteration it comes to raises: each pack it
      wraps has distinct node and edge ids and a token its body does not contain, its instruction
      cannot be taken for a fence and, if it is sent, holds no field separator, and each accepted
      proposal's parameters can be hashed and are answered by the analyst. */
  lemma TurnReturnsIff(cfg: Config, past: seq<LedgerEntry>, c: Core, s: Setting, maxHops: Option<int>,
                       seed: EvidencePack, answers: nat -> HopAnswers)
    requires Loaded(cfg) && Evidence in cfg.mandates && RunParameterizedPivot in s.table && s.maxAttempts >= 1
    requires Sound(cfg, past, c) && c.state == Opened
    ensures var (c', turn) := EvidenceTurn(cfg, c, s, maxHops, seed, answers);
            var visits := Visits(cfg, Seeded(c), 1, Ceiling(cfg, maxHops), s, seed, answers);
            && (turn.Turned? <==> c'.state == Opened)
            && (turn.Turned? <==> AllClear(cfg, visits, s, answers))
  {
    hide Hops, Recorded, AllClear, Visits;
    HopsContinue(cfg, past, Seeded(c), 1, Ceiling(cfg, maxHops), s, seed, answers);
  }

  /** A turn that begins an iteration with a pack in which a relation has an entity's id raises there,
      whoever answers what, and leaves the session in its turn with nothing written. */
  lemma ClashingIdsAbort(cfg: Config, c: Core, k: nat, ceiling: int, s: Setting, pack: EvidencePack,
                         answers: nat -> HopAnswers)
    requires Evidence in cfg.mandates && RunParameterizedPivot in s.table && s.maxAttempts >= 1
    requires c.budgets.Keys == cfg.mandates.Keys && c.state == Opened && k <= ceiling
    requires CheckBudget(c.budgets[Evidence], 0, true) == None && !Distinct(Ids(PackRecords(pack)))
    ensures var (c', turn) := Hops(cfg, c, k, ceiling, s, pack, answers);
            && turn.TurnAborted? && turn.why.ByFirewall? && turn.why.refusal.DuplicateId?
            && c'.state == AgentTurn && c'.chain == c.chain
  {
    hide Ask, Ids, Distinct, PackRecords;
    WrapIsSafe(cfg.codec.hash, PackRecords(pack));
    hide Wrapped;
  }

  // ------------------------------------------------------------------
  // What becomes of one hop
  // ------------------------------------------------------------------

  // A turn starts, and its model call goes through and is answered.
  predicate Reached(b: Budget, estimate: nat, attempts: nat -> Attempt, maxAttempts: nat)
    requires maxAttempts >= 1
  {
    CheckBudget(b, 0, true) == None && Affordable(b, estimate) && Answered(attempts, maxAttempts)
  }

  /** The pivot is permitted, the handler returns a pack, and the gate finds nothing wrong with it. */
  ghost predicate Grows(m: Mandate, s: Setting, answer: HandlerAnswer)
    requires RunParameterizedPivot in s.table
  {
    && Permitted(m, PivotProposal(s.table), s.table) && m.outputSchema == PackSchema
    && answer.Returned? && answer.artifact.PackArtifact?
    && Evaluate(s.table[RunParameterizedPivot].consequence, answer.artifact, s.checks, None) == []
  }

  lemma PivotResolves(table: map<ToolId, ToolEntry>)
    requires RunParameterizedPivot in table
    ensures PivotProposal(table).agent == Evidence
    ensures ResolveTool(PivotProposal(table).toolName) == Some(RunParameterizedPivot)
  {
    ResolveToolExact(ToolName(RunParameterizedPivot), RunParameterizedPivot);
  }

  lemma ExecuteOutcome(cfg: Config, past: seq<LedgerEntry>, c: Core, s: Setting, a: HopAnswers, ledgered: seq<LedgerEntry>)
    requires Loaded(cfg) && Evidence in cfg.mandates && RunParameterizedPivot in s.table
    requires Sound(cfg, past, c) && c.state == AwaitingAnalyst
    ensures var hop := Execute(cfg, c, s, a, ledgered).1;
            && hop.Hopped?
            && (hop.outcome, hop.pack, hop.stop) ==
               if Grows(cfg.mandates[Evidence], s, a.handler) then (PivotExecuted, Some(a.handler.artifact.pack), None)
               else (DispatchFailed, None, Some(DispatchError))
  {
    hide NewEntry, Dispatch, PivotProposal, Permitted, Evaluate;
    var ready := c.(ticks := c.ticks + 1);
    PivotResolves(s.table);
    DispatchContinues(cfg, past, ready, PivotProposal(s.table), s.table, s.checks, a.handler);
    ExecutedIff(cfg, past, ready, PivotProposal(s.table), s.table, s.checks, a.handler);
  }

  lemma JudgeOutcome(cfg: Config, past: seq<LedgerEntry>, c: Core, k: nat, s: Setting, a: HopAnswers,
                     sent: seq<LedgerEntry>)
    requires Loaded(cfg) && Evidence in cfg.mandates && RunParameterizedPivot in s.table
    requires Sound(cfg, past, c) && c.state == AgentTurn && Reviewable(a)
    ensures var hop := Judge(cfg, c, k, s, a, sent).1;
            && hop.Hopped?
            && (hop.outcome, hop.pack, hop.stop) ==
               if a.proposal == None then (ProposalRefused, None, None)
               else if a.review == Declines then (AnalystRejected, None, None)
               else if Grows(cfg.mandates[Evidence], s, a.handler) then (PivotExecuted, Some(a.handler.artifact.pack), None)
               else (DispatchFailed, None, Some(DispatchError))
  {
    hide NewEntry, Execute, AllClean, Grows, Note;
    var verdict := if a.proposal.Some? then VerificationPass else VerificationFail;
    NoteContinues(cfg, past, c, verdict, Evidence, VerdictPayload(a.proposal.Some?));
    var judged := Note(cfg, c, verdict, Some(Evidence), VerdictPayload(a.proposal.Some?));
    if a.proposal.Some? {
      var waiting := judged.(state := AwaitingAnalyst);
      var body := ReviewPayload(k, a.review == Approves);
      NoteContinues(cfg, past, waiting, HumanDecision, Evidence, body);
      if a.review == Approves {
        ExecuteOutcome(cfg, past, Note(cfg, waiting, HumanDecision, Some(Evidence), body), s, a,
                       sent + [NewEntry(cfg, c, verdict, Some(Evidence), VerdictPayload(a.proposal.Some?))]
                       + [NewEntry(cfg, waiting, HumanDecision, Some(Evidence), body)]);
      }
    }
  }

  lemma AskOutcome(cfg: Config, past: seq<LedgerEntry>, c: Core, k: nat, s: Setting, a: HopAnswers)
    requires Loaded(cfg) && Evidence in cfg.mandates && RunParameterizedPivot in s.table && s.maxAttempts >= 1
    requires Sound(cfg, past, c) && c.state == AgentTurn && AskClears(c, s, a)
    ensures var hop := Ask(cfg, c, k, s, a).1;
            && hop.Hopped?
            && (hop.outcome, hop.pack, hop.stop) ==
               if !Affordable(c.budgets[Evidence], a.estimate) then (ModelUnavailable, None, Some(TokenBudgetExhausted))
               else if !Answered(a.attempts, s.maxAttempts) then (ModelUnavailable, None, Some(DispatchError))
               else if a.proposal == None then (ProposalRefused, None, None)
               else if a.review == Declines then (AnalystRejected, None, None)
               else if Grows(cfg.mandates[Evidence], s, a.handler) then (PivotExecuted, Some(a.handler.artifact.pack), None)
               else (DispatchFailed, None, Some(DispatchError))
  {
    hide Call, Judge, NewEntry, Clean, Grows, AllClean;
    CallKeepsSound(cfg, past, c, Evidence, a.estimate, Clean(a.instruction), s.maxAttempts, a.attempts);
    CallAnswers(cfg, c, Evidence, a.estimate, Clean(a.instruction), s.maxAttempts, a.attempts);
    PromptNeedsBudget(cfg, past, c, Evidence, a.estimate, Clean(a.instruction), s.maxAttempts, a.attempts);
    var (asked, call, sent) := Call(cfg, c, Evidence, a.estimate, Clean(a.instruction), s.maxAttempts, a.attempts);
    if call.CallAnswered? {
      JudgeOutcome(cfg, past, asked, k, s, a, sent);
    }
  }

  lemma StartedSound(cfg: Config, past: seq<LedgerEntry>, c: Core)
    requires Sound(cfg, past, c) && Evidence in cfg.mandates
    ensures Sound(cfg, past, BeginTurn(c, Evidence, 0).0)
    ensures Evidence in c.budgets && Evidence in BeginTurn(c, Evidence, 0).0.budgets
    ensures var (b, b') := (c.budgets[Evidence], BeginTurn(c, Evidence, 0).0.budgets[Evidence]);
            b'.tokensSpent == b.tokensSpent && b'.tokenBudget == b.tokenBudget
  {
  }

  /** What becomes of a hop that nothing raises out of: out of budget or without a model for the reason it
      names, refused when the response is no proposal, rejected when the analyst declines one, executed with the
      handler's pack exactly when an approved pivot grows it, and otherwise failed. */
  lemma HopOutcomeIs(cfg: Config, past: seq<LedgerEntry>, c: Core, k: nat, s: Setting, pack: EvidencePack, a: HopAnswers)
    requires Loaded(cfg) && Evidence in cfg.mandates && RunParameterizedPivot in s.table && s.maxAttempts >= 1
    requires Sound(cfg, past, c) && c.state == Opened && HopClears(cfg, c, s, pack, a)
    ensures var hop := HopStep(cfg, c, k, s, pack, a).1;
            var b := c.budgets[Evidence];
            var reached := Reached(b, a.estimate, a.attempts, s.maxAttempts);
            var grows := Grows(cfg.mandates[Evidence], s, a.handler);
            && hop.Hopped?
            && (hop.outcome == BudgetExhausted <==> CheckBudget(b, 0, true).Some?)
            && (hop.outcome == ModelUnavailable <==> CheckBudget(b, 0, true) == None && !reached)
            && (hop.outcome == ProposalRefused <==> reached && a.proposal == None)
            && (hop.outcome == AnalystRejected <==> reached && a.proposal.Some? && a.review == Declines)
            && (hop.outcome == PivotExecuted <==> reached && a.proposal.Some? && a.review == Approves && grows)
            && (hop.outcome == DispatchFailed <==> reached && a.proposal.Some? && a.review == Approves && !grows)
            && hop.pack == (if hop.outcome == PivotExecuted then Some(a.handler.artifact.pack) else None)
            && hop.stop == (if CheckBudget(b, 0, true).Some? then CheckBudget(b, 0, true)
                            else if !Affordable(b, a.estimate) then Some(TokenBudgetExhausted)
                            else if !reached || hop.outcome == DispatchFailed then Some(DispatchError)
                            else None)
  {
    hide Ask, Preflight, Presentable, PackRecords, Clean, AllClean, Grows, Sound;
    PreflightIff(cfg.codec.hash, PackRecords(pack), a.instruction);
    StartedSound(cfg, past, c);
    var (c1, start) := BeginTurn(c, Evidence, 0);
    if start.Started? {
      SameClears(c, c1, s, a);
      AskOutcome(cfg, past, c1, k, s, a);
    }
  }

  // ------------------------------------------------------------------
  // What a turn asks for and what a hop records
  // ------------------------------------------------------------------

  lemma ScopeOrderIsSorted(i: nat, j: nat)
    requires i < j < |SCOPE_ORDER|
    ensures Precedes(ScopeName(SCOPE_ORDER[i]), ScopeName(SCOPE_ORDER[j]))
  {
    assert ScopeName(Channel)[1..][0] == 'h' && ScopeName(Comment)[1..][0] == 'o';
  }

  lemma EveryScopeOrdered(d: DataScope)
    ensures d in SCOPE_ORDER
  {
    var i := match d case AccountMeta => 0 case Channel => 1 case Comment => 2 case EngagementEvent => 3
                     case InfraHint => 4 case Video => 5;
    assert SCOPE_ORDER[i] == d;
  }

  lemma {:induction false} NamesOfAre(order: seq<DataScope>, scopes: set<DataScope>, d: DataScope)
    ensures ScopeName(d) in NamesOf(order, scopes) <==> d in order && d in scopes
    ensures forall n | n in NamesOf(order, scopes) :: exists e :: e in order && e in scopes && n == ScopeName(e)
  {
    hide ScopeName;
    if order != [] {
      NamesOfAre(order[1..], scopes, d);
      assert order == [order[0]] + order[1..];
      if ScopeName(d) == ScopeName(order[0]) {
        ResolveScopeExact(ScopeName(d), d);
        ResolveScopeExact(ScopeName(d), order[0]);
      }
    }
  }

  /** A turn asks for exactly the scopes its tool needs. */
  lemma AsksForWhatIsNeeded(entry: ToolEntry, m: Mandate)
    ensures Requested(RequiredScopeNames(entry)) == entry.requiredScopes
    ensures NamesAllowed(RequiredScopeNames(entry), m) <==> entry.requiredScopes <= m.dataScopes
  {
    var names := RequiredScopeNames(entry);
    forall d: DataScope ensures ScopeName(d) in names <==> d in entry.requiredScopes {
      EveryScopeOrdered(d);
      NamesOfAre(SCOPE_ORDER, entry.requiredScopes, d);
    }
    forall n | n in names ensures ResolveScope(n).Some? && ResolveScope(n).value in entry.requiredScopes {
      NamesOfAre(SCOPE_ORDER, entry.requiredScopes, Channel);
      var d :| d in SCOPE_ORDER && d in entry.requiredScopes && n == ScopeName(d);
      ResolveScopeExact(n, d);
    }
    forall d: DataScope | d in entry.requiredScopes ensures d in Requested(names) {
      ResolveScopeExact(ScopeName(d), d);
    }
    if NamesAllowed(names, m) {
      RequestedWithin(names, m);
    }
  }

  /** So its own tool is open to it exactly when the mandate lists the tool, covers what the tool needs and admits
      its consequence, below ENFORCE, and the build has a handler. */
  lemma PivotPermittedIff(m: Mandate, table: map<ToolId, ToolEntry>)
    requires RunParameterizedPivot in table
    ensures var entry := table[RunParameterizedPivot];
            Permitted(m, PivotProposal(table), table) <==>
              && RunParameterizedPivot in m.allowedTools && entry.requiredScopes <= m.dataScopes
              && entry.consequence != Enforce && Admits(m.ceiling, entry.consequence) && entry.hasHandler
  {
    PivotResolves(table);
    AsksForWhatIsNeeded(table[RunParameterizedPivot], m);
    hide ResolveTool, RequiredScopeNames, Requested;
  }

  // What the model's answer leads to: the verdict on it and, on a proposal, the analyst's decision and what the
  // dispatch of an approved pivot records.
  ghost function JudgedRecords(m: Mandate, k: nat, s: Setting, a: HopAnswers): seq<Record>
    requires RunParameterizedPivot in s.table
  {
    if a.proposal == None then [(VerificationFail, VerdictPayload(false))]
    else
      [(VerificationPass, VerdictPayload(true)), (HumanDecision, ReviewPayload(k, a.review == Approves))] +
      if a.review == Approves then DispatchRecords(m, PivotProposal(s.table), s.table, s.checks, a.handler) else []
  }

  /** What a hop that clears records, in order: the prompt, the verdict on the proposal, the analyst's decision,
      and whatever the dispatch of an approved pivot records. */
  ghost function HopRecords(b: Budget, m: Mandate, k: nat, s: Setting, a: HopAnswers): seq<Record>
    requires s.maxAttempts >= 1 && RunParameterizedPivot in s.table
  {
    if CheckBudget(b, 0, true).Some? || !Affordable(b, a.estimate) then []
    else
      [(PromptSent, PromptPayload(a.estimate))] +
      if !Answered(a.attempts, s.maxAttempts) then [(VerificationFail, AdapterErrorPayload)]
      else JudgedRecords(m, k, s, a)
  }

  lemma ExecuteRecords(cfg: Config, past: seq<LedgerEntry>, c: Core, s: Setting, a: HopAnswers, ledgered: seq<LedgerEntry>)
    requires Loaded(cfg) && Evidence in cfg.mandates && RunParameterizedPivot in s.table
    requires Sound(cfg, past, c) && c.state == AwaitingAnalyst
    ensures Writes(cfg, c, Execute(cfg, c, s, a, ledgered).0, Some(Evidence),
                   DispatchRecords(cfg.mandates[Evidence], PivotProposal(s.table), s.table, s.checks, a.handler))
  {
    hide NewEntry, Dispatch, PivotProposal, DispatchRecords, Writes;
    var ready := c.(ticks := c.ticks + 1);
    PivotIsEvidence(s.table);
    var p := PivotProposal(s.table);
    DispatchContinues(cfg, past, ready, p, s.table, s.checks, a.handler);
    DispatchWrites(cfg, past, ready, p, s.table, s.checks, a.handler);
    var after := Dispatch(cfg, ready, p, s.table, s.checks, a.handler).0;
    var records := DispatchRecords(cfg.mandates[Evidence], p, s.table, s.checks, a.handler);
    WritesNothing(cfg, c, ready, Some(Evidence));
    WritesTrans(cfg, c, ready, after, Some(Evidence), [], records);
    assert [] + records == records;
    SameWrites(cfg, c, after, Execute(cfg, c, s, a, ledgered).0, Some(Evidence), records);
  }

  lemma JudgeRecords(cfg: Config, past: seq<LedgerEntry>, c: Core, k: nat, s: Setting, a: HopAnswers, sent: seq<LedgerEntry>)
    requires Loaded(cfg) && Evidence in cfg.mandates && RunParameterizedPivot in s.table
    requires Sound(cfg, past, c) && c.state == AgentTurn && Reviewable(a)
    ensures Writes(cfg, c, Judge(cfg, c, k, s, a, sent).0, Some(Evidence), JudgedRecords(cfg.mandates[Evidence], k, s, a))
  {
    hide NewEntry, Execute, AllClean, Note, Writes, DispatchRecords;
    var who, c' := Some(Evidence), Judge(cfg, c, k, s, a, sent).0;
    if a.proposal == None {
      NoteContinues(cfg, past, c, VerificationFail, Evidence, VerdictPayload(false));
      NoteWrites(cfg, c, VerificationFail, who, VerdictPayload(false));
      SameWrites(cfg, c, Note(cfg, c, VerificationFail, who, VerdictPayload(false)), c', who,
                 [(VerificationFail, VerdictPayload(false))]);
    } else {
      var verdict, body := VerdictPayload(true), ReviewPayload(k, a.review == Approves);
      NoteContinues(cfg, past, c, VerificationPass, Evidence, verdict);
      NoteWrites(cfg, c, VerificationPass, who, verdict);
      var judged := Note(cfg, c, VerificationPass, who, verdict);
      var waiting := judged.(state := AwaitingAnalyst);
      SameWrites(cfg, c, judged, waiting, who, [(VerificationPass, verdict)]);
      NoteContinues(cfg, past, waiting, HumanDecision, Evidence, body);
      NoteWrites(cfg, waiting, HumanDecision, who, body);
      var decided := Note(cfg, waiting, HumanDecision, who, body);
      WritesTrans(cfg, c, waiting, decided, who, [(VerificationPass, verdict)], [(HumanDecision, body)]);
      var two := [(VerificationPass, verdict), (HumanDecision, body)];
      assert [(VerificationPass, verdict)] + [(HumanDecision, body)] == two;
      if a.review == Approves {
        var soFar := sent + [NewEntry(cfg, c, VerificationPass, who, verdict)] + [NewEntry(cfg, waiting, HumanDecision, who, body)];
        ExecuteRecords(cfg, past, decided, s, a, soFar);
        WritesTrans(cfg, c, decided, Execute(cfg, decided, s, a, soFar).0, who, two,
                    DispatchRecords(cfg.mandates[Evidence], PivotProposal(s.table), s.table, s.checks, a.handler));
      } else {
        SameWrites(cfg, c, decided, c', who, two);
        assert two + [] == two;
      }
    }
  }

  lemma AskRecords(cfg: Config, past: seq<LedgerEntry>, c: Core, k: nat, s: Setting, a: HopAnswers)
    requires Loaded(cfg) && Evidence in cfg.mandates && RunParameterizedPivot in s.table && s.maxAttempts >= 1
    requires Sound(cfg, past, c) && c.state == AgentTurn && AskClears(c, s, a)
    ensures Writes(cfg, c, Ask(cfg, c, k, s, a).0, Some(Evidence),
                   if !Affordable(c.budgets[Evidence], a.estimate) then []
                   else
                     [(PromptSent, PromptPayload(a.estimate))] +
                     if !Answered(a.attempts, s.maxAttempts) then [(VerificationFail, AdapterErrorPayload)]
                     else JudgedRecords(cfg.mandates[Evidence], k, s, a))
  {
    hide Call, Judge, NewEntry, Clean, AllClean, Writes, JudgedRecords;
    var who, c' := Some(Evidence), Ask(cfg, c, k, s, a).0;
    CallKeepsSound(cfg, past, c, Evidence, a.estimate, Clean(a.instruction), s.maxAttempts, a.attempts);
    CallAnswers(cfg, c, Evidence, a.estimate, Clean(a.instruction), s.maxAttempts, a.attempts);
    CallWrites(cfg, c, Evidence, a.estimate, Clean(a.instruction), s.maxAttempts, a.attempts);
    var (asked, call, sent) := Call(cfg, c, Evidence, a.estimate, Clean(a.instruction), s.maxAttempts, a.attempts);
    var records := CallRecords(c.budgets[Evidence], a.estimate, Clean(a.instruction), s.maxAttempts, a.attempts);
    if call.CallAnswered? {
      JudgeRecords(cfg, past, asked, k, s, a, sent);
      var prompt := [(PromptSent, PromptPayload(a.estimate))];
      assert prompt + [] == prompt;
      assert records == prompt;
      WritesTrans(cfg, c, asked, c', who, prompt, JudgedRecords(cfg.mandates[Evidence], k, s, a));
    } else {
      SameWrites(cfg, c, asked, c', who, records);
    }
  }

  /** So they are, each for the evidence agent and bound to its mandate. */
  lemma HopWrites(cfg: Config, past: seq<LedgerEntry>, c: Core, k: nat, s: Setting, pack: EvidencePack, a: HopAnswers)
    requires Loaded(cfg) && Evidence in cfg.mandates && RunParameterizedPivot in s.table && s.maxAttempts >= 1
    requires Sound(cfg, past, c) && c.state == Opened && HopClears(cfg, c, s, pack, a)
    ensures Writes(cfg, c, HopStep(cfg, c, k, s, pack, a).0, Some(Evidence),
                   HopRecords(c.budgets[Evidence], cfg.mandates[Evidence], k, s, a))
  {
    hide Ask, Preflight, Presentable, PackRecords, Clean, AllClean, Writes, JudgedRecords, Sound;
    PreflightIff(cfg.codec.hash, PackRecords(pack), a.instruction);
    StartedSound(cfg, past, c);
    var (c1, start) := BeginTurn(c, Evidence, 0);
    if start.Started? {
      SameClears(c, c1, s, a);
      AskRecords(cfg, past, c1, k, s, a);
      FromOther(cfg, c1, c, Ask(cfg, c1, k, s, a).0, Some(Evidence),
                HopRecords(c.budgets[Evidence], cfg.mandates[Evidence], k, s, a));
    } else {
      WritesNothing(cfg, c, c1, Some(Evidence));
    }
  }

  /** What a turn raises before anything else: without an evidence mandate an unknown agent, and outside OPEN, when the
      budget would allow it, an illegal transition; nothing is written either way. */
  lemma TurnNeedsMandateAndOpen(cfg: Config, c: Core, s: Setting, maxHops: Option<int>, seed: EvidencePack,
                                answers: nat -> HopAnswers)
    requires s.maxAttempts >= 1 && c.budgets.Keys == cfg.mandates.Keys && RunParameterizedPivot in s.table
    ensures var (c', turn) := EvidenceTurn(cfg, c, s, maxHops, seed, answers);
            && (Evidence !in cfg.mandates ==> c' == c && turn == TurnAborted(BySession(UnknownAgent)))
            && (Evidence in cfg.mandates && Ceiling(cfg, maxHops) >= 1 && c.state != Opened
                && CheckBudget(c.budgets[Evidence], 0, true) == None ==>
                  c'.chain == c.chain && c'.state == c.state && turn == TurnAborted(BySession(IllegalTransition)))
  {
    hide Ask, Preflight, PackRecords;
  }

  /** What it takes for a pivot to grow the pack: a hop that clears, an accepted and approved proposal
      the mandate permits, and a handler whose pack passes the gate. The pack is then the handler's. */
  lemma ApprovedPivotGrows(cfg: Config, past: seq<LedgerEntry>, c: Core, k: nat, s: Setting, pack: EvidencePack, a: HopAnswers)
    requires Loaded(cfg) && Evidence in cfg.mandates && RunParameterizedPivot in s.table && s.maxAttempts >= 1
    requires Sound(cfg, past, c) && c.state == Opened && HopClears(cfg, c, s, pack, a)
    requires CheckBudget(c.budgets[Evidence], 0, true) == None && Affordable(c.budgets[Evidence], a.estimate)
    requires Answered(a.attempts, s.maxAttempts) && a.proposal.Some? && a.review == Approves
    requires Permitted(cfg.mandates[Evidence], PivotProposal(s.table), s.table)
    requires cfg.mandates[Evidence].outputSchema == PackSchema
    requires a.handler.Returned? && a.handler.artifact.PackArtifact?
    requires Evaluate(s.table[RunParameterizedPivot].consequence, a.handler.artifact, s.checks, None) == []
    ensures HopStep(cfg, c, k, s, pack, a).1.Hopped?
    ensures HopStep(cfg, c, k, s, pack, a).1.pack == Some(a.handler.artifact.pack)
  {
    hide HopStep, HopClears, Permitted, Evaluate, PivotProposal;
    HopOutcomeIs(cfg, past, c, k, s, pack, a);
  }

  // The pack a turn is left with, by its records: the last one an executed pivot handed out.
  function LatestPack(hops: seq<HopRecord>, pack: EvidencePack, answers: nat -> HopAnswers): EvidencePack
    decreases |hops|
  {
    if hops == [] then pack
    else
      var answer := answers(hops[0].index).handler;
      LatestPack(hops[1..],
                 if hops[0].outcome == PivotExecuted && answer.Returned? && answer.artifact.PackArtifact?
                 then answer.artifact.pack else pack,
                 answers)
  }

  /** What a turn hands back is the pack its records say: grown by executed pivots only, and by all of them. */
  lemma {:induction false} TurnPackIsLatest(cfg: Config, past: seq<LedgerEntry>, c: Core, k: nat, ceiling: int, s: Setting,
                                            pack: EvidencePack, answers: nat -> HopAnswers)
    requires Loaded(cfg) && Evidence in cfg.mandates && RunParameterizedPivot in s.table && s.maxAttempts >= 1
    requires Sound(cfg, past, c) && c.state == Opened
    ensures var turn := Hops(cfg, c, k, ceiling, s, pack, answers).1;
            turn.Turned? ==> turn.pack == LatestPack(turn.hops, pack, answers)
    decreases ceiling - k + 1
  {
    hide HopStep, HopClears, Reached;
    if k <= ceiling {
      HopContinues(cfg, past, c, k, s, pack, answers(k));
      var (c1, hop) := HopStep(cfg, c, k, s, pack, answers(k));
      if hop.Hopped? {
        HopOutcomeIs(cfg, past, c, k, s, pack, answers(k));
        var next := if hop.pack.Some? then hop.pack.value else pack;
        if hop.stop == None {
          TurnPackIsLatest(cfg, past, c1, k + 1, ceiling, s, next, answers);
          var rest := Hops(cfg, c1, k + 1, ceiling, s, next, answers).1;
          if rest.Turned? {
            assert ([HopRecord(k, hop.outcome)] + rest.hops)[1..] == rest.hops;
          }
        } else {
          assert [HopRecord(k, hop.outcome)][1..] == [];
        }
      }
    }
  }

  /** Such a pack can come from a handler: a pivot that hands one out and passes the gate ends its own
      hop in OPEN, and the next one raises. */
  lemma ClashingAnswerAborts(cfg: Config, past: seq<LedgerEntry>, c: Core, ceiling: int, s: Setting, pack: EvidencePack,
                             answers: nat -> HopAnswers)
    requires Loaded(cfg) && Evidence in cfg.mandates && RunParameterizedPivot in s.table && s.maxAttempts >= 1
    requires Sound(cfg, past, c) && c.state == Opened && ceiling >= 2
    requires var (c1, hop) := HopStep(cfg, c, 1, s, pack, answers(1));
             && hop.Hopped? && hop.pack == Some(CLASHING_PACK)
             && c1.budgets.Keys == cfg.mandates.Keys && CheckBudget(c1.budgets[Evidence], 0, true) == None
    ensures var (c', turn) := Hops(cfg, c, 1, ceiling, s, pack, answers);
            turn.TurnAborted? && turn.why.ByFirewall? && turn.why.refusal.DuplicateId? && c'.state == AgentTurn
  {
    hide HopStep, CheckBudget;
    HopContinues(cfg, past, c, 1, s, pack, answers(1));
    var (c1, hop) := HopStep(cfg, c, 1, s, pack, answers(1));
    ClashingIds();
    ClashingIdsAbort(cfg, c1, 2, ceiling, s, CLASHING_PACK, answers);
  }

  // ------------------------------------------------------------------
  // The turn on objects
  // ------------------------------------------------------------------

  method GoBack(session: Session, hop: Hop) returns (r: Hop)
    requires session.Wired()
    modifies session`state
    ensures session.Wired() && (session.View(), r) == Back(old(session.View()), hop)
  {
    var ok := session.Transition(Opened);
    r := if ok then hop else HopRaised(BySession(IllegalTransition));
  }

  method ExecutePivot(session: Session, s: Setting, a: HopAnswers, ledgered: seq<LedgerEntry>) returns (hop: Hop)
    requires session.Wired() && Evidence in session.cfg.mandates && RunParameterizedPivot in s.table
    modifies session`state, session`events, session`ticks, session.ledger
    ensures session.Wired() && (session.View(), hop) == Execute(session.cfg, old(session.View()), s, a, ledgered)
  {
    hide Dispatch, NewEntry, Move;
    var retrieved := session.Now();
    var dispatched := DispatchProposal(session, PivotProposal(s.table), s.table, s.checks, a.handler);
    var o := dispatched.value;
    if o.decision == Executed && o.result.Some? && o.result.value.PackArtifact? {
      hop := GoBack(session, Hopped(PivotExecuted, ledgered + o.ledgered, Some(o.result.value.pack), None));
    } else {
      hop := GoBack(session, Hopped(DispatchFailed, ledgered + o.ledgered, None, Some(DispatchError)));
    }
  }

  method DecidePivot(session: Session, k: nat, s: Setting, a: HopAnswers, ledgered: seq<LedgerEntry>) returns (hop: Hop)
    requires session.Wired() && Evidence in session.cfg.mandates && RunParameterizedPivot in s.table
    modifies session`state, session`events, session`ticks, session.ledger
    ensures session.Wired() && (session.View(), hop) == Decide(session.cfg, old(session.View()), k, s, a, ledgered)
  {
    hide Execute, NewEntry, Move;
    if a.review == NoReview {
      return HopRaised(ByReviewer);
    }
    var review := session.AppendEvent(HumanDecision, Some(Evidence), ReviewPayload(k, a.review == Approves));
    var soFar := ledgered + [review.entry];
    if a.review == Declines {
      hop := GoBack(session, Hopped(AnalystRejected, soFar, None, None));
      return;
    }
    hop := ExecutePivot(session, s, a, soFar);
  }

  method JudgeProposal(session: Session, k: nat, s: Setting, a: HopAnswers, sent: seq<LedgerEntry>) returns (hop: Hop)
    requires session.Wired() && Evidence in session.cfg.mandates && RunParameterizedPivot in s.table
    modifies session`state, session`events, session`ticks, session.ledger
    ensures session.Wired() && (session.View(), hop) == Judge(session.cfg, old(session.View()), k, s, a, sent)
  {
    hide Decide, NewEntry, AllClean;
    var verdict := if a.proposal.Some? then VerificationPass else VerificationFail;
    var judged := session.AppendEvent(verdict, Some(Evidence), VerdictPayload(a.proposal.Some?));
    var ledgered := sent + [judged.entry];
    if a.proposal == None {
      hop := GoBack(session, Hopped(ProposalRefused, ledgered, None, None));
      return;
    }
    var ok := session.Transition(AwaitingAnalyst);
    if !ok {
      return HopRaised(BySession(IllegalTransition));
    }
    if !AllClean(a.proposal.value) {
      return HopRaised(BySession(ValueError));
    }
    hop := DecidePivot(session, k, s, a, ledgered);
  }

  method AskForPivot(session: Session, k: nat, s: Setting, a: HopAnswers) returns (hop: Hop)
    requires session.Wired() && Evidence in session.cfg.mandates && RunParameterizedPivot in s.table && s.maxAttempts >= 1
    modifies session`state, session`events, session`ticks, session.ledger, session.trackers
    ensures session.Wired() && (session.View(), hop) == Ask(session.cfg, old(session.View()), k, s, a)
  {
    hide Call, Judge, Move, Clean;
    var call, sent := CallModel(session, Evidence, a.estimate, Clean(a.instruction), s.maxAttempts, a.attempts);
    match call
    case CallRaised(error) => hop := HopRaised(BySession(error));
    case CallRefused(reason) => hop := GoBack(session, Hopped(ModelUnavailable, sent, None, Some(reason)));
    case CallFailed => hop := GoBack(session, Hopped(ModelUnavailable, sent, None, Some(DispatchError)));
    case CallAnswered(_) => hop := JudgeProposal(session, k, s, a, sent);
  }

  method RunHop(session: Session, k: nat, s: Setting, pack: EvidencePack, a: HopAnswers) returns (hop: Hop)
    requires session.Wired() && RunParameterizedPivot in s.table && s.maxAttempts >= 1
    modifies session`state, session`events, session`ticks, session.ledger, session.trackers
    ensures session.Wired() && (session.View(), hop) == HopStep(session.cfg, old(session.View()), k, s, pack, a)
  {
    hide Ask, Preflight, PackRecords;
    var start := session.StartTurn(Evidence, 0);
    if start.TurnRaised? {
      return HopRaised(BySession(start.error));
    }
    if start.TurnRefused? {
      return Hopped(BudgetExhausted, [], None, Some(start.reason));
    }
    var firewalled := RunPreflight(session.cfg.codec.hash, PackRecords(pack), a.instruction);
    if firewalled.Some? {
      return HopRaised(firewalled.value);
    }
    hop := AskForPivot(session, k, s, a);
  }

  // What a loop that already gathered this much returns in the end.
  ghost function WithHops(rest: (Core, Turn), hops: seq<HopRecord>, ledgered: seq<LedgerEntry>): (Core, Turn) {
    (rest.0, match rest.1
             case TurnAborted(why) => TurnAborted(why)
             case Turned(more, entries, pack, stop) => Turned(hops + more, ledgered + entries, pack, stop))
  }

  lemma WithNoHops(rest: (Core, Turn))
    ensures WithHops(rest, [], []) == rest
  {
    if rest.1.Turned? {
      assert [] + rest.1.hops == rest.1.hops && [] + rest.1.ledgered == rest.1.ledgered;
    }
  }

  lemma NothingLeft(cfg: Config, c: Core, k: nat, ceiling: int, s: Setting, pack: EvidencePack, answers: nat -> HopAnswers,
                    hops: seq<HopRecord>, ledgered: seq<LedgerEntry>)
    requires s.maxAttempts >= 1 && c.budgets.Keys == cfg.mandates.Keys && RunParameterizedPivot in s.table && k > ceiling
    ensures WithHops(Hops(cfg, c, k, ceiling, s, pack, answers), hops, ledgered) == (c, Turned(hops, ledgered, pack, None))
  {
    assert hops + [] == hops && ledgered + [] == ledgered;
  }

  // One iteration moves one hop from what is left to what is gathered.
  lemma WithOneHopMore(cfg: Config, c: Core, k: nat, ceiling: int, s: Setting, pack: EvidencePack, answers: nat -> HopAnswers,
                    hops: seq<HopRecord>, ledgered: seq<LedgerEntry>)
    requires s.maxAttempts >= 1 && c.budgets.Keys == cfg.mandates.Keys && RunParameterizedPivot in s.table && k <= ceiling
    requires HopStep(cfg, c, k, s, pack, answers(k)).0.budgets.Keys == cfg.mandates.Keys
    ensures var (c1, hop) := HopStep(cfg, c, k, s, pack, answers(k));
            var before := WithHops(Hops(cfg, c, k, ceiling, s, pack, answers), hops, ledgered);
            match hop
            case HopRaised(why) => before == (c1, TurnAborted(why))
            case Hopped(outcome, more, grown, stop) =>
              var next := if grown.Some? then grown.value else pack;
              if stop.Some? then before == (c1, Turned(hops + [HopRecord(k, outcome)], ledgered + more, next, stop))
              else before == WithHops(Hops(cfg, c1, k + 1, ceiling, s, next, answers),
                                     hops + [HopRecord(k, outcome)], ledgered + more)
  {
    hide HopStep;
    var (c1, hop) := HopStep(cfg, c, k, s, pack, answers(k));
    if hop.Hopped? && hop.stop == None {
      var next := if hop.pack.Some? then hop.pack.value else pack;
      var rest := Hops(cfg, c1, k + 1, ceiling, s, next, answers).1;
      if rest.Turned? {
        assert hops + ([HopRecord(k, hop.outcome)] + rest.hops) == hops + [HopRecord(k, hop.outcome)] + rest.hops;
        assert ledgered + (hop.ledgered + rest.ledgered) == ledgered + hop.ledgered + rest.ledgered;
      }
    }
  }

  /** run_evidence_turn over a session object. */
  method RunEvidenceTurn(session: Session, s: Setting, maxHops: Option<int>, seed: EvidencePack,
                         answers: nat -> HopAnswers)
    returns (turn: Turn)
    requires session.Wired() && RunParameterizedPivot in s.table && s.maxAttempts >= 1
    modifies session`state, session`events, session`ticks, session.ledger, session.trackers
    ensures session.Wired()
    ensures (session.View(), turn) == EvidenceTurn(session.cfg, old(session.View()), s, maxHops, seed, answers)
  {
    hide HopStep, Hops, WithHops;
    if Evidence !in session.cfg.mandates {
      return TurnAborted(BySession(UnknownAgent));
    }
    var ceiling := if maxHops.Some? then maxHops.value else session.cfg.mandates[Evidence].maxSteps;
    var seeded := session.Now();
    ghost var c := session.View();
    ghost var whole := Hops(session.cfg, c, 1, ceiling, s, seed, answers);
    var pack, hops, ledgered := seed, [], [];
    var attempt := 1;
    WithNoHops(whole);
    while attempt <= ceiling
      invariant session.Wired() && attempt >= 1
      invariant whole == WithHops(Hops(session.cfg, session.View(), attempt, ceiling, s, pack, answers), hops, ledgered)
      decreases ceiling - attempt
    {
      ghost var now := session.View();
      var hop := RunHop(session, attempt, s, pack, answers(attempt));
      WithOneHopMore(session.cfg, now, attempt, ceiling, s, pack, answers, hops, ledgered);
      if hop.HopRaised? {
        return TurnAborted(hop.why);
      }
      hops := hops + [HopRecord(attempt, hop.outcome)];
      ledgered := ledgered + hop.ledgered;
      if hop.pack.Some? {
        pack := hop.pack.value;
      }
      if hop.stop.Some? {
        return Turned(hops, ledgered, pack, hop.stop);
      }
      attempt := attempt + 1;
    }
    turn := Turned(hops, ledgered, pack, None);
    NothingLeft(session.cfg, session.View(), attempt, ceiling, s, pack, answers, hops, ledgered);
  }
}
