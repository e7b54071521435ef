/** The budgeted, ledgered model boundary (orchestrator/adapter.py). */
module Adapters {
  import opened Prelude
  import opened Canonical
  import opened Mandates
  import opened Ledgers
  import opened Gates
  import opened Sessions

  /** What one call to an adapter comes back with. */
  datatype Attempt =
    | Response(inputTokens: nat, outputTokens: nat)
    | TransientFailure
    | PermanentFailure
    | ModelRefusal

  // Index of the attempt call_with_retry stops at, from attempt k on.
  function StopsAt(answers: nat -> Attempt, maxAttempts: nat, k: nat): (n: nat)
    requires k < maxAttempts
    ensures k <= n < maxAttempts
    ensures forall j: nat | k <= j < n :: answers(j).TransientFailure?
    ensures answers(n).TransientFailure? ==> n == maxAttempts - 1
    decreases maxAttempts - k
  {
    if answers(k).TransientFailure? && k + 1 < maxAttempts then StopsAt(answers, maxAttempts, k + 1) else k
  }

  /** call_with_retry: only transient failures are retried, with one sleep between attempts. */
  method CallWithRetry(answers: nat -> Attempt, maxAttempts: nat) returns (last: Attempt, calls: nat, sleeps: nat)
    requires maxAttempts >= 1
    ensures calls == StopsAt(answers, maxAttempts, 0) + 1 && last == answers(calls - 1)
    ensures sleeps == calls - 1
  {
    calls, sleeps := 0, 0;
    last := TransientFailure;
    for attempt := 0 to maxAttempts
      invariant calls == sleeps == attempt
      invariant attempt < maxAttempts ==> StopsAt(answers, maxAttempts, 0) == StopsAt(answers, maxAttempts, attempt)
      invariant attempt < maxAttempts
    {
      last := answers(attempt);
      calls := calls + 1;
      if !last.TransientFailure? || attempt + 1 >= maxAttempts {
        break;
      }
      sleeps := sleeps + 1;
    }
  }

  datatype ModelCall =
    | CallRaised(error: Error)
    | CallRefused(reason: CloseReason)
    | CallFailed
    | CallAnswered(response: Attempt)

  function Booked(c: Core, agent: AgentId, tokens: nat): Core
    requires agent in c.budgets
  {
    c.(budgets := c.budgets[agent := c.budgets[agent].(tokensSpent := c.budgets[agent].tokensSpent + tokens)])
  }

  // The prompt is on the chain before anything is sent; only a response is charged for.
  function Send(cfg: Config, c: Core, agent: AgentId, estimate: nat, last: Attempt): (Core, ModelCall, seq<LedgerEntry>)
    requires agent in c.budgets && agent in cfg.mandates
  {
    var prompt := PromptPayload(estimate);
    var sent := Note(cfg, c, PromptSent, Some(agent), prompt);
    var first := NewEntry(cfg, c, PromptSent, Some(agent), prompt);
    if last.Response? then (Booked(sent, agent, last.inputTokens + last.outputTokens), CallAnswered(last), [first])
    else
      (Note(cfg, sent, VerificationFail, Some(agent), AdapterErrorPayload), CallFailed,
       [first, NewEntry(cfg, sent, VerificationFail, Some(agent), AdapterErrorPayload)])
  }

  /** One model call: what becomes of the session, what the turn learns, and what was ledgered. The
      request is digested before its prompt is recorded, and a request carrying the field separator
      (clean false) has no digest. */
  function Call(cfg: Config, c: Core, agent: AgentId, estimate: nat, clean: bool, maxAttempts: nat, answers: nat -> Attempt)
    : (Core, ModelCall, seq<LedgerEntry>)
    requires maxAttempts >= 1 && c.budgets.Keys == cfg.mandates.Keys
  {
    if agent !in c.budgets then (c, CallRaised(UnknownAgent), [])
    else
      var reason := CheckBudget(c.budgets[agent], estimate, false);
      if reason.Some? then (c, CallRefused(reason.value), [])
      else if !clean then (c, CallRaised(ValueError), [])
      else Send(cfg, c, agent, estimate, answers(StopsAt(answers, maxAttempts, 0)))
  }

  method SendPrompt(session: Session, agent: AgentId, estimate: nat, maxAttempts: nat, answers: nat -> Attempt)
    returns (call: ModelCall, ledgered: seq<LedgerEntry>)
    requires session.Wired() && maxAttempts >= 1 && agent in session.budgets
    modifies session`events, session`ticks, session.ledger, session.trackers
    ensures session.Wired()
    ensures (session.View(), call, ledgered)
            == Send(session.cfg, old(session.View()), agent, estimate, answers(StopsAt(answers, maxAttempts, 0)))
  {
    hide Written;
    var prompt := session.AppendEvent(PromptSent, Some(agent), PromptPayload(estimate));
    var last, calls, sleeps := CallWithRetry(answers, maxAttempts);
    if last.Response? {
      session.BookTokens(agent, last.inputTokens + last.outputTokens);
      return CallAnswered(last), [prompt.entry];
    }
    var failure := session.AppendEvent(VerificationFail, Some(agent), AdapterErrorPayload);
    return CallFailed, [prompt.entry, failure.entry];
  }

  /** call_model: check the budget, digest and ledger the prompt, call, then book the actuals, in that
      order. */
  method CallModel(session: Session, agent: AgentId, estimate: nat, clean: bool, maxAttempts: nat,
                   answers: nat -> Attempt)
    returns (call: ModelCall, ledgered: seq<LedgerEntry>)
    requires session.Wired() && maxAttempts >= 1
    modifies session`events, session`ticks, session.ledger, session.trackers
    ensures session.Wired()
    ensures (session.View(), call, ledgered)
            == Call(session.cfg, old(session.View()), agent, estimate, clean, maxAttempts, answers)
  {
    if agent !in session.budgets {
      return CallRaised(UnknownAgent), [];
    }
    assert session.View().budgets[agent] == session.budgets[agent].Snapshot();
    var checked := session.budgets[agent].Check(estimate, false);
    if checked.value.Some? {
      return CallRefused(checked.value.value), [];
    }
    if !clean {
      return CallRaised(ValueError), [];
    }
    call, ledgered := SendPrompt(session, agent, estimate, maxAttempts, answers);
  }
}
