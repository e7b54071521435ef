/** Whole runs of a session: any sequence of openings, turns, model calls, dispatches, events and
    closings, with whatever the model, the handlers and the checkers answer. */
module Runs {
  import opened Prelude
  import opened Canonical
  import opened Mandates
  import opened Ledgers
  import opened Artifacts
  import opened Gates
  import opened Sessions
  import opened Adapters
  import opened Dispatching
  import opened DispatchProofs

  datatype Action =
    | DoOpen
    | DoBegin(agent: AgentId, estimate: int)
    | DoMove(target: SessionState)
    | DoCall(caller: AgentId, tokens: nat, clean: bool, maxAttempts: nat, answers: nat -> Attempt)
    | DoDispatch(proposal: ToolProposal, table: map<ToolId, ToolEntry>, checks: GateChecks, answer: HandlerAnswer)
    | DoNote(event: EventType, writer: Option<AgentId>, payload: Payload)
    | DoClose(reason: CloseReason)

  /** A call that raises leaves the session as it was. */
  function Step(cfg: Config, c: Core, a: Action): Core
    requires c.budgets.Keys == cfg.mandates.Keys
  {
    match a
    case DoOpen => Open(cfg, c).0
    case DoBegin(agent, estimate) => BeginTurn(c, agent, estimate).0
    case DoMove(target) => if target in {Opened, AwaitingAnalyst} then Move(c, target).0 else c
    case DoCall(agent, tokens, clean, maxAttempts, answers) =>
      if maxAttempts == 0 then c else Call(cfg, c, agent, tokens, clean, maxAttempts, answers).0
    case DoDispatch(p, table, checks, answer) =>
      if p.agent in cfg.mandates then Dispatch(cfg, c, p, table, checks, answer).0 else c
    case DoNote(event, writer, payload) =>
      if writer.Some? && writer.value !in cfg.mandates then c else Note(cfg, c, event, writer, payload)
    case DoClose(reason) => Close(cfg, c, reason).0
  }

  lemma CallKeepsSound(cfg: Config, past: seq<LedgerEntry>, c: Core, agent: AgentId, tokens: nat, clean: bool,
                       maxAttempts: nat, answers: nat -> Attempt)
    requires Sound(cfg, past, c) && maxAttempts >= 1
    ensures var (c', call, ledgered) := Call(cfg, c, agent, tokens, clean, maxAttempts, answers);
            && Sound(cfg, past, c') && c'.chain == c.chain + ledgered && c'.state == c.state
            && c.events <= c'.events
            && EventsOf(ledgered) == (match call
                                      case CallAnswered(_) => [PromptSent]
                                      case CallFailed => [PromptSent, VerificationFail]
                                      case _ => [])
  {
    hide NewEntry;
    if agent in c.budgets && CheckBudget(c.budgets[agent], tokens, false) == None && clean {
      var prompt := PromptPayload(tokens);
      NoteAdds(cfg, past, c, PromptSent, agent, prompt);
      var sent := Note(cfg, c, PromptSent, Some(agent), prompt);
      NoteAdds(cfg, past, sent, VerificationFail, agent, AdapterErrorPayload);
    } else {
      assert c.chain + [] == c.chain;
    }
  }

  /** Every step keeps the session's account of the chain, the chain itself and the set of budgets. */
  lemma StepKeepsSound(cfg: Config, past: seq<LedgerEntry>, c: Core, a: Action)
    requires Loaded(cfg) && Sound(cfg, past, c)
    ensures Sound(cfg, past, Step(cfg, c, a))
  {
    hide NewEntry, Dispatch, Call;
    match a
    case DoOpen =>
      if CanTransition(c.state, Opened) {
        NoteKeepsSound(cfg, past, c.(state := Opened), SessionOpen, None, OpenedPayload(cfg.mandateSetHash));
      }
    case DoBegin(agent, estimate) =>
    case DoMove(target) =>
    case DoCall(agent, tokens, clean, maxAttempts, answers) =>
      if maxAttempts > 0 {
        CallKeepsSound(cfg, past, c, agent, tokens, clean, maxAttempts, answers);
      }
    case DoDispatch(p, table, checks, answer) =>
      if p.agent in cfg.mandates {
        DispatchTrace(cfg, past, c, p, table, checks, answer);
      }
    case DoNote(event, writer, payload) =>
      if writer.None? || writer.value in cfg.mandates {
        NoteKeepsSound(cfg, past, c, event, writer, payload);
      }
    case DoClose(reason) =>
      if CanTransition(c.state, Closing) {
        NoteKeepsSound(cfg, past, c.(state := Closing), SessionClose, None,
                       ClosedPayload(reason, EventCounts(c.events), c.budgets));
      }
  }

  lemma StepKeepsBudgets(cfg: Config, c: Core, a: Action)
    requires Loaded(cfg) && c.budgets.Keys == cfg.mandates.Keys
    ensures Step(cfg, c, a).budgets.Keys == cfg.mandates.Keys
  {
    hide Written, Validate, Gate, Evaluate, GateEntries, ResolveTool, Guard;
    match a
    case DoDispatch(p, table, checks, answer) =>
      if p.agent in cfg.mandates {
        DispatchKeepsBudgets(cfg, c, p, table, checks, answer);
      }
    case _ =>
  }

  lemma {:induction false} ScopesKeepBudgets(cfg: Config, c: Core, agent: AgentId, names: seq<string>, granted: set<DataScope>)
    requires agent in cfg.mandates
    ensures RequestScopes(cfg, c, agent, names, granted).0.budgets == c.budgets
    ensures RequestScopes(cfg, c, agent, names, granted).0.state == c.state
    decreases |names|
  {
    hide Guard;
    if names != [] {
      var (next, guarded) := AskOne(cfg, c, agent, names[0]);
      if guarded.ScopeGranted? {
        ScopesKeepBudgets(cfg, next, agent, names[1..], granted + {guarded.scope});
      }
    }
  }

  // No dispatch touches a budget or the session's state.
  lemma DispatchKeepsBudgets(cfg: Config, c: Core, p: ToolProposal, table: map<ToolId, ToolEntry>, checks: GateChecks,
                             answer: HandlerAnswer)
    requires p.agent in cfg.mandates
    ensures Dispatch(cfg, c, p, table, checks, answer).0.budgets == c.budgets
    ensures Dispatch(cfg, c, p, table, checks, answer).0.state == c.state
  {
    hide Written, Validate, Evaluate, ResolveTool, GateEntries, RequestScopes;
    ScopesKeepBudgets(cfg, c, p.agent, p.scopeNames, {});
    forall d: Core, consequence, artifact
      ensures var g := GateFor(cfg, d, p.agent, consequence, checks, artifact);
              FiledAll(d.(ticks := d.ticks + 1), g.ledgered, g.payloads).budgets == d.budgets
              && FiledAll(d.(ticks := d.ticks + 1), g.ledgered, g.payloads).state == d.state
    {
      var g := GateFor(cfg, d, p.agent, consequence, checks, artifact);
      FiledAllAppends(d.(ticks := d.ticks + 1), g.ledgered, g.payloads);
    }
  }

  function Run(cfg: Config, c: Core, actions: seq<Action>): Core
    requires Loaded(cfg) && c.budgets.Keys == cfg.mandates.Keys
    decreases |actions|
  {
    if actions == [] then c
    else
      StepKeepsBudgets(cfg, c, actions[0]);
      Run(cfg, Step(cfg, c, actions[0]), actions[1..])
  }

  // ------------------------------------------------------------------
  // The session and the chain agree over every run
  // ------------------------------------------------------------------

  lemma {:induction false} RunKeepsSound(cfg: Config, past: seq<LedgerEntry>, c: Core, actions: seq<Action>)
    requires Loaded(cfg) && Sound(cfg, past, c)
    ensures Sound(cfg, past, Run(cfg, c, actions))
    decreases |actions|
  {
    hide Step;
    if actions != [] {
      StepKeepsSound(cfg, past, c, actions[0]);
      RunKeepsSound(cfg, past, Step(cfg, c, actions[0]), actions[1..]);
    }
  }

  /** Over any run of a new session the recorded events are exactly what the ledger gained, in
      order, once each, with the body behind every digest; and a chain that was intact stays so. */
  lemma SessionAndChainAgree(cfg: Config, past: seq<LedgerEntry>, actions: seq<Action>)
    requires Loaded(cfg)
    ensures var c := Run(cfg, Fresh(cfg, past), actions);
            && c.chain == past + seq(|c.events|, i requires 0 <= i < |c.events| => c.events[i].entry)
            && (forall i | 0 <= i < |c.events| ::
                  c.events[i].entry.payloadDigest == PayloadDigest(cfg.codec, c.events[i].payload))
            && (Intact(cfg.codec.hash, past) ==> Intact(cfg.codec.hash, c.chain))
  {
    hide Run;
    RunKeepsSound(cfg, past, Fresh(cfg, past), actions);
    var c := Run(cfg, Fresh(cfg, past), actions);
    var entries := seq(|c.events|, i requires 0 <= i < |c.events| => c.events[i].entry);
    assert c.chain[..|past|] == past;
    assert c.chain[|past|..] == entries;
  }

  function TypesOf(events: seq<RecordedEvent>): seq<EventType> {
    seq(|events|, i requires 0 <= i < |events| => events[i].entry.event)
  }

  /** event_counts is a histogram of the session's own events. */
  lemma {:induction false} CountsAreMultiplicities(events: seq<RecordedEvent>, e: EventType)
    ensures var counts := EventCounts(events);
            (if e in counts then counts[e] else 0) == multiset(TypesOf(events))[e]
    decreases |events|
  {
    if events != [] {
      var n := |events| - 1;
      CountsAreMultiplicities(events[..n], e);
      assert TypesOf(events) == TypesOf(events[..n]) + [events[n].entry.event];
    }
  }

  /** Closing after any run: one SESSION_CLOSE more, counting everything before it and not itself,
      and the head handed back is the head of the finished chain. */
  lemma CloseSealsTheChain(cfg: Config, past: seq<LedgerEntry>, actions: seq<Action>, reason: CloseReason)
    requires Loaded(cfg) && Intact(cfg.codec.hash, past)
    ensures var c := Run(cfg, Fresh(cfg, past), actions);
            var (c', head) := Close(cfg, c, reason);
            if c.state in {Opened, AgentTurn, AwaitingAnalyst} then
              && c'.state == Closed && head == Some(HeadOf(c'.chain)) && Intact(cfg.codec.hash, c'.chain)
              && |c'.chain| == |c.chain| + 1 && c.chain <= c'.chain
              && c'.events == c.events + [RecordedEvent(c'.chain[|c.chain|],
                                                        ClosedPayload(reason, EventCounts(c.events), c.budgets))]
              && c'.chain[|c.chain|].event == SessionClose
            else head == None && c' == c
  {
    hide Run, Written;
    var c := Run(cfg, Fresh(cfg, past), actions);
    RunKeepsSound(cfg, past, Fresh(cfg, past), actions);
    StepKeepsSound(cfg, past, c, DoClose(reason));
    var c' := Close(cfg, c, reason).0;
    if CanTransition(c.state, Closing) {
      TailIsHead(cfg.codec.hash, c'.chain);
      WrittenIsFaithful(cfg.codec, c.chain, cfg.clock(c.ticks), None, cfg.mandateSetHash, SessionClose,
                        ClosedPayload(reason, EventCounts(c.events), c.budgets));
    }
  }

  // ------------------------------------------------------------------
  // Budgets over every run
  // ------------------------------------------------------------------

  /** A prompt that was sent: what it was estimated at, what it cost, and what was spent before. */
  datatype Sent = Sent(agent: AgentId, estimate: nat, charged: nat, before: nat)

  function SentBy(c: Core, a: Action): Option<Sent> {
    if a.DoCall? && a.maxAttempts > 0 && a.caller in c.budgets
       && CheckBudget(c.budgets[a.caller], a.tokens, false) == None && a.clean
    then
      var last := a.answers(StopsAt(a.answers, a.maxAttempts, 0));
      Some(Sent(a.caller, a.tokens, if last.Response? then last.inputTokens + last.outputTokens else 0,
                c.budgets[a.caller].tokensSpent))
    else None
  }

  /** The last prompt one agent sent in a run. */
  function LastSent(cfg: Config, c: Core, actions: seq<Action>, agent: AgentId): Option<Sent>
    requires Loaded(cfg) && c.budgets.Keys == cfg.mandates.Keys
    decreases |actions|
  {
    if actions == [] then None
    else
      StepKeepsBudgets(cfg, c, actions[0]);
      var later := LastSent(cfg, Step(cfg, c, actions[0]), actions[1..], agent);
      var now := SentBy(c, actions[0]);
      if later.Some? then later else if now.Some? && now.value.agent == agent then now else None
  }

  // Where a budget stands after its agent's last prompt.
  ghost predicate WithinBudget(m: Mandate, b: Budget, last: Option<Sent>) {
    && b.tokenBudget == m.tokenBudget && b.maxSteps == m.maxSteps
    && b.stepsTaken <= b.maxSteps
    && match last
       case None => b.tokensSpent == 0
       case Some(s) =>
         b.tokensSpent == s.before + s.charged && s.before < b.tokenBudget && s.before + s.estimate <= b.tokenBudget
  }

  // One step moves one agent's budget at most, and by what that step books.
  lemma StepBooks(cfg: Config, c: Core, a: Action, agent: AgentId)
    requires Loaded(cfg) && c.budgets.Keys == cfg.mandates.Keys && agent in c.budgets
    ensures agent in Step(cfg, c, a).budgets
    ensures var b, b' := c.budgets[agent], Step(cfg, c, a).budgets[agent];
            && b'.tokenBudget == b.tokenBudget && b'.maxSteps == b.maxSteps
            && (b.stepsTaken <= b.maxSteps ==> b'.stepsTaken <= b'.maxSteps)
            && b'.tokensSpent == b.tokensSpent
                                 + (if SentBy(c, a).Some? && SentBy(c, a).value.agent == agent
                                    then SentBy(c, a).value.charged else 0)
  {
    hide Written;
    match a
    case DoDispatch(p, table, checks, answer) =>
      hide Dispatch;
      if p.agent in cfg.mandates {
        DispatchKeepsBudgets(cfg, c, p, table, checks, answer);
      }
    case _ =>
  }

  lemma {:induction false} RunWithinBudget(cfg: Config, c: Core, actions: seq<Action>, agent: AgentId, last: Option<Sent>)
    requires Loaded(cfg) && c.budgets.Keys == cfg.mandates.Keys && agent in cfg.mandates
    requires WithinBudget(cfg.mandates[agent], c.budgets[agent], last)
    ensures agent in Run(cfg, c, actions).budgets
    ensures var later := LastSent(cfg, c, actions, agent);
            WithinBudget(cfg.mandates[agent], Run(cfg, c, actions).budgets[agent], if later.Some? then later else last)
    decreases |actions|
  {
    hide Step;
    if actions != [] {
      StepBooks(cfg, c, actions[0], agent);
      StepKeepsBudgets(cfg, c, actions[0]);
      var now := SentBy(c, actions[0]);
      RunWithinBudget(cfg, Step(cfg, c, actions[0]), actions[1..], agent,
                      if now.Some? && now.value.agent == agent then now else last);
    }
  }

  /** Over any run: steps never pass their ceiling, and tokens pass theirs by no more than what the
      last prompt cost above its own estimate, so overshoot never accumulates. */
  lemma BudgetsHold(cfg: Config, past: seq<LedgerEntry>, actions: seq<Action>, agent: AgentId)
    requires Loaded(cfg) && agent in cfg.mandates
    ensures agent in Run(cfg, Fresh(cfg, past), actions).budgets
    ensures var m := cfg.mandates[agent];
            var b := Run(cfg, Fresh(cfg, past), actions).budgets[agent];
            var last := LastSent(cfg, Fresh(cfg, past), actions, agent);
            && b.stepsTaken <= m.maxSteps
            && (last == None ==> b.tokensSpent == 0)
            && (last.Some? ==> b.tokensSpent <= m.tokenBudget + Max(0, last.value.charged - last.value.estimate))
  {
    hide Run, LastSent;
    RunWithinBudget(cfg, Fresh(cfg, past), actions, agent, None);
  }

  /** A prompt goes out exactly when something remains, the estimate fits in it and the request has a
      digest; nothing is written or booked otherwise. */
  lemma PromptNeedsBudget(cfg: Config, past: seq<LedgerEntry>, c: Core, agent: AgentId, estimate: nat, clean: bool,
                          maxAttempts: nat, answers: nat -> Attempt)
    requires Sound(cfg, past, c) && agent in cfg.mandates && maxAttempts >= 1
    ensures var (c', call, ledgered) := Call(cfg, c, agent, estimate, clean, maxAttempts, answers);
            var b := c.budgets[agent];
            var fits := b.tokensSpent < b.tokenBudget && b.tokensSpent + estimate <= b.tokenBudget;
            && (PromptSent in EventsOf(ledgered) <==> fits && clean)
            && (PromptSent !in EventsOf(ledgered) ==>
                  c' == c && call == if fits then CallRaised(ValueError) else CallRefused(TokenBudgetExhausted))
  {
    hide Send;
    CallKeepsSound(cfg, past, c, agent, estimate, clean, maxAttempts, answers);
    var (c', call, ledgered) := Call(cfg, c, agent, estimate, clean, maxAttempts, answers);
    assert CheckBudget(c.budgets[agent], estimate, false) == None && clean ==> call.CallAnswered? || call.CallFailed? by {
      SendAnswersOrFails(cfg, c, agent, estimate, maxAttempts, answers);
    }
  }

  lemma SendAnswersOrFails(cfg: Config, c: Core, agent: AgentId, estimate: nat, maxAttempts: nat, answers: nat -> Attempt)
    requires agent in cfg.mandates && agent in c.budgets && maxAttempts >= 1
    ensures var call := Send(cfg, c, agent, estimate, answers(StopsAt(answers, maxAttempts, 0))).1;
            call.CallAnswered? || call.CallFailed?
  {
  }

  // ------------------------------------------------------------------
  // The objects follow
  // ------------------------------------------------------------------

  /** Each action, carried out on a session object, does what the step on values does. */
  method Perform(session: Session, a: Action)
    requires session.Wired()
    modifies session`state, session`events, session`ticks, session.ledger, session.trackers
    ensures session.Wired() && session.View() == Step(session.cfg, old(session.View()), a)
  {
    hide Written, Dispatch, Note, Call;
    match a
    case DoOpen => var _ := session.OpenSession();
    case DoBegin(agent, estimate) => var _ := session.StartTurn(agent, estimate);
    case DoMove(target) =>
      if target in {Opened, AwaitingAnalyst} {
        var _ := session.Transition(target);
      }
    case DoCall(agent, tokens, clean, maxAttempts, answers) =>
      if maxAttempts > 0 {
        var _, _ := CallModel(session, agent, tokens, clean, maxAttempts, answers);
      }
    case DoDispatch(p, table, checks, answer) =>
      var _ := DispatchProposal(session, p, table, checks, answer);
    case DoNote(event, writer, payload) =>
      if writer.None? || writer.value in session.cfg.mandates {
        var _ := session.AppendEvent(event, writer, payload);
      }
    case DoClose(reason) => var _ := session.CloseSession(reason);
  }

  /** A whole run on objects is the run on values. */
  method Drive(session: Session, actions: seq<Action>)
    requires session.Wired()
    modifies session`state, session`events, session`ticks, session.ledger, session.trackers
    ensures session.Wired() && session.View() == Run(session.cfg, old(session.View()), actions)
  {
    hide Step;
    ghost var start := session.View();
    for i := 0 to |actions|
      invariant session.Wired()
      invariant Run(session.cfg, start, actions) == Run(session.cfg, session.View(), actions[i..])
    {
      assert actions[i..][0] == actions[i] && actions[i..][1..] == actions[i + 1..];
      Perform(session, actions[i]);
    }
  }
}
