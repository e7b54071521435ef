/** The life of a session: its state follows the edges, closing is final and recorded once, and the
    opening that binds the fleet stays first. */
module Lifecycles {
  import opened Prelude
  import opened Canonical
  import opened Mandates
  import opened Ledgers
  import opened Gates
  import opened Sessions
  import opened Adapters
  import opened Dispatching
  import opened DispatchProofs
  import opened Runs

  // A note of the caller's own that is not one of the session's two markers.
  predicate OwnBusiness(a: Action) {
    a.DoNote? ==> a.event !in {SessionOpen, SessionClose}
  }

  predicate Sealed(c: Core) { c.state == Closed }

  /** What one step does to the state: it stays, takes one edge, or closes in two. */
  lemma StepFollowsEdges(cfg: Config, past: seq<LedgerEntry>, c: Core, a: Action)
    requires Loaded(cfg) && Sound(cfg, past, c)
    ensures var next := Step(cfg, c, a).state;
            next == c.state || CanTransition(c.state, next) || (CanTransition(c.state, Closing) && next == Closed)
    ensures Sealed(c) ==> Sealed(Step(cfg, c, a)) && forall agent | agent in c.budgets ::
              agent in Step(cfg, c, a).budgets && Step(cfg, c, a).budgets[agent].stepsTaken == c.budgets[agent].stepsTaken
  {
    hide NewEntry, Written, Dispatch, Call;
    match a
    case DoCall(agent, tokens, clean, maxAttempts, answers) =>
      if maxAttempts > 0 {
        CallKeepsSound(cfg, past, c, agent, tokens, clean, maxAttempts, answers);
        CallTakesNoStep(cfg, c, agent, tokens, clean, maxAttempts, answers);
      }
    case DoDispatch(p, table, checks, answer) =>
      if p.agent in cfg.mandates {
        DispatchKeepsBudgets(cfg, c, p, table, checks, answer);
      }
    case _ =>
  }

  lemma CallTakesNoStep(cfg: Config, c: Core, agent: AgentId, tokens: nat, clean: bool, maxAttempts: nat,
                        answers: nat -> Attempt)
    requires c.budgets.Keys == cfg.mandates.Keys && maxAttempts >= 1
    ensures var (c', call, ledgered) := Call(cfg, c, agent, tokens, clean, maxAttempts, answers);
            forall b | b in c.budgets :: b in c'.budgets && c'.budgets[b].stepsTaken == c.budgets[b].stepsTaken
  {
    hide NewEntry, Written;
  }

  /** A closed session stays closed, whatever is asked of it, and starts no further turn. */
  lemma {:induction false} ClosedIsFinal(cfg: Config, past: seq<LedgerEntry>, c: Core, actions: seq<Action>)
    requires Loaded(cfg) && Sound(cfg, past, c) && Sealed(c)
    ensures Sealed(Run(cfg, c, actions))
    ensures forall agent | agent in c.budgets ::
              agent in Run(cfg, c, actions).budgets
              && Run(cfg, c, actions).budgets[agent].stepsTaken == c.budgets[agent].stepsTaken
    decreases |actions|
  {
    hide Step;
    if actions != [] {
      StepFollowsEdges(cfg, past, c, actions[0]);
      StepKeepsSound(cfg, past, c, actions[0]);
      ClosedIsFinal(cfg, past, Step(cfg, c, actions[0]), actions[1..]);
    }
  }

  // ------------------------------------------------------------------
  // What a step writes
  // ------------------------------------------------------------------

  // The types a step adds to the chain.
  function Added(c: Core, d: Core): seq<EventType>
    requires |c.chain| <= |d.chain|
  {
    EventsOf(d.chain[|c.chain|..])
  }

  lemma AddedIs(c: Core, d: Core, entries: seq<LedgerEntry>)
    requires d.chain == c.chain + entries
    ensures Added(c, d) == EventsOf(entries)
  {
    assert d.chain[|c.chain|..] == entries;
  }

  lemma GateWritesNoMarker(consequence: Consequence, failures: seq<GateFailure>)
    ensures SessionOpen !in GateEvents(consequence, failures, None)
    ensures SessionClose !in GateEvents(consequence, failures, None)
  {
  }

  lemma DispatchWritesNoMarker(cfg: Config, past: seq<LedgerEntry>, c: Core, p: ToolProposal,
                               table: map<ToolId, ToolEntry>, checks: GateChecks, answer: HandlerAnswer)
    requires Loaded(cfg) && p.agent in cfg.mandates && Sound(cfg, past, c)
    ensures var d := Dispatch(cfg, c, p, table, checks, answer).0;
            c.chain <= d.chain && SessionOpen !in Added(c, d) && SessionClose !in Added(c, d)
  {
    hide Dispatch, Sound, Evaluate, GateEvents, NamesAllowed, Requested, ResolveTool, WellFormed, Admits;
    DispatchTrace(cfg, past, c, p, table, checks, answer);
    var (d, o) := Dispatch(cfg, c, p, table, checks, answer);
    AddedIs(c, d, o.ledgered);
    if o.refusal == None {
      var entry := table[ResolveTool(p.toolName).value];
      if answer.Returned? {
        GateWritesNoMarker(entry.consequence, Evaluate(entry.consequence, answer.artifact, checks, None));
      }
    }
  }

  /** Opening writes SESSION_OPEN, closing SESSION_CLOSE, and nothing else writes either. */
  lemma StepWritesMarkers(cfg: Config, past: seq<LedgerEntry>, c: Core, a: Action)
    requires Loaded(cfg) && Sound(cfg, past, c) && OwnBusiness(a)
    ensures var d := Step(cfg, c, a);
            && c.chain <= d.chain
            && (if a == DoOpen && CanTransition(c.state, Opened) then Added(c, d) == [SessionOpen]
                else if a.DoClose? && CanTransition(c.state, Closing) then Added(c, d) == [SessionClose]
                else SessionOpen !in Added(c, d) && SessionClose !in Added(c, d))
  {
    hide Written, Dispatch, Call, Accounted;
    match a
    case DoOpen =>
      if CanTransition(c.state, Opened) {
        NoteWrites(cfg, c.(state := Opened), SessionOpen, None, OpenedPayload(cfg.mandateSetHash));
      }
    case DoCall(agent, tokens, clean, maxAttempts, answers) =>
      if maxAttempts > 0 {
        CallKeepsSound(cfg, past, c, agent, tokens, clean, maxAttempts, answers);
        var (next, call, ledgered) := Call(cfg, c, agent, tokens, clean, maxAttempts, answers);
        AddedIs(c, next, ledgered);
      }
    case DoDispatch(p, table, checks, answer) =>
      if p.agent in cfg.mandates {
        DispatchWritesNoMarker(cfg, past, c, p, table, checks, answer);
      }
    case DoNote(event, writer, payload) =>
      if writer.None? || writer.value in cfg.mandates {
        NoteWrites(cfg, c, event, writer, payload);
      }
    case DoClose(reason) =>
      if CanTransition(c.state, Closing) {
        NoteWrites(cfg, c.(state := Closing), SessionClose, None, ClosedPayload(reason, EventCounts(c.events), c.budgets));
      }
    case _ =>
  }

  lemma NoteWrites(cfg: Config, c: Core, event: EventType, agent: Option<AgentId>, p: Payload)
    requires agent.Some? ==> agent.value in cfg.mandates
    ensures var d := Note(cfg, c, event, agent, p);
            c.chain <= d.chain && Added(c, d) == [event] && d.state == c.state
  {
    hide Written;
    WrittenIsFaithful(cfg.codec, c.chain, cfg.clock(c.ticks), agent, BindingHash(cfg, agent), event, p);
    AddedIs(c, Note(cfg, c, event, agent, p), [NewEntry(cfg, c, event, agent, p)]);
  }

  // ------------------------------------------------------------------
  // Sealed once
  // ------------------------------------------------------------------

  function CountOf(types: seq<EventType>, e: EventType): nat { multiset(types)[e] }

  lemma CountGrows(past: seq<LedgerEntry>, c: Core, d: Core, e: EventType)
    requires past <= c.chain <= d.chain
    ensures CountOf(EventsOf(d.chain[|past|..]), e) == CountOf(EventsOf(c.chain[|past|..]), e) + CountOf(Added(c, d), e)
  {
    var before, added := EventsOf(c.chain[|past|..]), Added(c, d);
    assert d.chain[|past|..] == c.chain[|past|..] + d.chain[|c.chain|..];
    assert EventsOf(d.chain[|past|..]) == before + added;
  }

  // As many SESSION_CLOSE entries since the session began as its state says.
  ghost predicate ClosedOnce(past: seq<LedgerEntry>, c: Core) {
    && past <= c.chain && c.state != Closing
    && CountOf(EventsOf(c.chain[|past|..]), SessionClose) == if Sealed(c) then 1 else 0
  }

  lemma StepKeepsClosedOnce(cfg: Config, past: seq<LedgerEntry>, c: Core, a: Action)
    requires Loaded(cfg) && Sound(cfg, past, c) && OwnBusiness(a) && ClosedOnce(past, c)
    ensures ClosedOnce(past, Step(cfg, c, a))
  {
    StepWritesMarkers(cfg, past, c, a);
    StepFollowsEdges(cfg, past, c, a);
    var d := Step(cfg, c, a);
    CountGrows(past, c, d, SessionClose);
    if a.DoClose? && CanTransition(c.state, Closing) {
      assert Sealed(d) by {
        hide Note;
      }
    } else {
      AbsentCount(Added(c, d), SessionClose);
      NotSealedOtherwise(cfg, past, c, a);
    }
  }

  lemma AbsentCount(types: seq<EventType>, e: EventType)
    requires e !in types
    ensures CountOf(types, e) == 0
  {
  }

  lemma NotSealedOtherwise(cfg: Config, past: seq<LedgerEntry>, c: Core, a: Action)
    requires Loaded(cfg) && Sound(cfg, past, c) && !(a.DoClose? && CanTransition(c.state, Closing)) && c.state != Closing
    ensures Sealed(Step(cfg, c, a)) <==> Sealed(c)
    ensures Step(cfg, c, a).state != Closing
  {
    StepFollowsEdges(cfg, past, c, a);
    hide Written, Dispatch, Call;
    match a
    case DoCall(agent, tokens, clean, maxAttempts, answers) =>
      if maxAttempts > 0 {
        CallKeepsSound(cfg, past, c, agent, tokens, clean, maxAttempts, answers);
      }
    case DoDispatch(p, table, checks, answer) =>
      if p.agent in cfg.mandates {
        DispatchKeepsBudgets(cfg, c, p, table, checks, answer);
      }
    case _ =>
  }

  lemma {:induction false} RunKeepsClosedOnce(cfg: Config, past: seq<LedgerEntry>, c: Core, actions: seq<Action>)
    requires Loaded(cfg) && Sound(cfg, past, c) && ClosedOnce(past, c)
    requires forall i | 0 <= i < |actions| :: OwnBusiness(actions[i])
    ensures ClosedOnce(past, Run(cfg, c, actions))
    decreases |actions|
  {
    hide Step, ClosedOnce;
    if actions != [] {
      StepKeepsClosedOnce(cfg, past, c, actions[0]);
      StepKeepsSound(cfg, past, c, actions[0]);
      RunKeepsClosedOnce(cfg, past, Step(cfg, c, actions[0]), actions[1..]);
    }
  }

  /** In any run whose callers do not write the session's markers themselves, there is one
      SESSION_CLOSE if the session is closed and none otherwise, and it never rests in CLOSING. */
  lemma ClosedExactlyOnce(cfg: Config, past: seq<LedgerEntry>, actions: seq<Action>)
    requires Loaded(cfg) && forall i | 0 <= i < |actions| :: OwnBusiness(actions[i])
    ensures ClosedOnce(past, Run(cfg, Fresh(cfg, past), actions))
  {
    FreshIsUnclosed(cfg, past);
    hide ClosedOnce, Run, Fresh, Sound, OwnBusiness;
    RunKeepsClosedOnce(cfg, past, Fresh(cfg, past), actions);
  }

  lemma FreshIsUnclosed(cfg: Config, past: seq<LedgerEntry>)
    requires Loaded(cfg)
    ensures Sound(cfg, past, Fresh(cfg, past)) && ClosedOnce(past, Fresh(cfg, past))
  {
    assert Fresh(cfg, past).chain[|past|..] == [];
  }

  // ------------------------------------------------------------------
  // The opening stays first
  // ------------------------------------------------------------------

  lemma {:induction false} ChainOnlyGrows(cfg: Config, past: seq<LedgerEntry>, c: Core, actions: seq<Action>)
    requires Loaded(cfg) && Sound(cfg, past, c) && forall i | 0 <= i < |actions| :: OwnBusiness(actions[i])
    ensures c.chain <= Run(cfg, c, actions).chain
    decreases |actions|
  {
    hide Step;
    if actions != [] {
      StepWritesMarkers(cfg, past, c, actions[0]);
      StepKeepsSound(cfg, past, c, actions[0]);
      ChainOnlyGrows(cfg, past, Step(cfg, c, actions[0]), actions[1..]);
    }
  }

  /** A session that is opened first keeps, as its first entry, a SESSION_OPEN bound to the digest of
      exactly the fleet it was loaded with. */
  lemma OpeningStaysFirst(cfg: Config, past: seq<LedgerEntry>, actions: seq<Action>)
    requires Loaded(cfg) && forall i | 0 <= i < |actions| :: OwnBusiness(actions[i])
    ensures var c := Run(cfg, Fresh(cfg, past), [DoOpen] + actions);
            && |c.chain| > |past|
            && c.chain[|past|].event == SessionOpen && c.chain[|past|].mandateHash == cfg.mandateSetHash
            && c.chain[|past|].payloadDigest == PayloadDigest(cfg.codec, OpenedPayload(cfg.mandateSetHash))
  {
    hide Written;
    var start := Fresh(cfg, past);
    var after := Step(cfg, start, DoOpen);
    WrittenIsFaithful(cfg.codec, past, cfg.clock(start.ticks), None, BindingHash(cfg, None), SessionOpen,
                      OpenedPayload(cfg.mandateSetHash));
    StepKeepsSound(cfg, past, start, DoOpen);
    assert ([DoOpen] + actions)[1..] == actions;
    ChainOnlyGrows(cfg, past, after, actions);
  }

  // ------------------------------------------------------------------
  // How often a session is opened
  // ------------------------------------------------------------------

  // The two calls that take a session out of CREATED; end_turn and resume are the second.
  predicate EntersOpen(a: Action) {
    a.DoOpen? || (a.DoMove? && a.target == Opened)
  }

  /** The first call of a run that could take a session out of CREATED. */
  function WayIn(actions: seq<Action>): Option<Action> {
    if actions == [] then None else if EntersOpen(actions[0]) then Some(actions[0]) else WayIn(actions[1..])
  }

  /** How often `open` is called in the middle of a turn: where an agent or the analyst has the session. */
  function Reopenings(cfg: Config, c: Core, actions: seq<Action>): nat
    requires Loaded(cfg) && c.budgets.Keys == cfg.mandates.Keys
    decreases |actions|
  {
    if actions == [] then 0
    else
      StepKeepsBudgets(cfg, c, actions[0]);
      (if actions[0].DoOpen? && c.state in {AgentTurn, AwaitingAnalyst} then 1 else 0)
      + Reopenings(cfg, Step(cfg, c, actions[0]), actions[1..])
  }

  function Openings(past: seq<LedgerEntry>, c: Core): nat
    requires |past| <= |c.chain|
  {
    CountOf(EventsOf(c.chain[|past|..]), SessionOpen)
  }

  lemma LeavesCreated(cfg: Config, past: seq<LedgerEntry>, c: Core, a: Action)
    requires Loaded(cfg) && Sound(cfg, past, c)
    ensures Step(cfg, c, a).state == Created <==> c.state == Created && !EntersOpen(a)
  {
    StepFollowsEdges(cfg, past, c, a);
    hide Written, Dispatch, Call, NewEntry;
    if c.state == Created {
      match a
      case DoCall(agent, tokens, clean, maxAttempts, answers) =>
        if maxAttempts > 0 {
          CallKeepsSound(cfg, past, c, agent, tokens, clean, maxAttempts, answers);
        }
      case DoDispatch(p, table, checks, answer) =>
        if p.agent in cfg.mandates {
          DispatchKeepsBudgets(cfg, c, p, table, checks, answer);
        }
      case _ =>
    }
  }

  lemma StepOpens(cfg: Config, past: seq<LedgerEntry>, c: Core, a: Action)
    requires Loaded(cfg) && Sound(cfg, past, c) && OwnBusiness(a)
    ensures past <= Step(cfg, c, a).chain
    ensures Openings(past, Step(cfg, c, a))
         == Openings(past, c) + if a.DoOpen? && c.state in {Created, AgentTurn, AwaitingAnalyst} then 1 else 0
  {
    StepWritesMarkers(cfg, past, c, a);
    var d := Step(cfg, c, a);
    CountGrows(past, c, d, SessionOpen);
    hide Step;
    if a.DoOpen? && CanTransition(c.state, Opened) {
      assert CountOf([SessionOpen], SessionOpen) == 1;
    } else if a.DoClose? && CanTransition(c.state, Closing) {
      assert CountOf([SessionClose], SessionOpen) == 0;
    } else {
      AbsentCount(Added(c, d), SessionOpen);
    }
  }

  lemma {:induction false} RunOpens(cfg: Config, past: seq<LedgerEntry>, c: Core, actions: seq<Action>)
    requires Loaded(cfg) && Sound(cfg, past, c) && forall i | 0 <= i < |actions| :: OwnBusiness(actions[i])
    ensures past <= Run(cfg, c, actions).chain
    ensures Run(cfg, c, actions).state == Created <==> c.state == Created && WayIn(actions) == None
    ensures Openings(past, Run(cfg, c, actions))
         == Openings(past, c) + (if c.state == Created && WayIn(actions) == Some(DoOpen) then 1 else 0)
            + Reopenings(cfg, c, actions)
    decreases |actions|
  {
    hide Step, Openings;
    if actions != [] {
      StepOpens(cfg, past, c, actions[0]);
      LeavesCreated(cfg, past, c, actions[0]);
      StepKeepsSound(cfg, past, c, actions[0]);
      RunOpens(cfg, past, Step(cfg, c, actions[0]), actions[1..]);
    }
  }

  /** How many openings a session's part of the chain holds, over any run whose callers do not write the
      markers themselves: one if `open` was the way in, and one more for each `open` in the middle of a
      turn. So a session that has left CREATED was opened exactly once just when it was let in by `open` and
      never reopened, or let in unrecorded and reopened once; it has no opening at all just when it was let in
      unrecorded and never reopened. */
  lemma OpenedOnceIff(cfg: Config, past: seq<LedgerEntry>, actions: seq<Action>)
    requires Loaded(cfg) && forall i | 0 <= i < |actions| :: OwnBusiness(actions[i])
    ensures var c := Run(cfg, Fresh(cfg, past), actions);
            var again := Reopenings(cfg, Fresh(cfg, past), actions);
            && past <= c.chain
            && (c.state == Created <==> WayIn(actions) == None)
            && Openings(past, c) == (if WayIn(actions) == Some(DoOpen) then 1 else 0) + again
            && (Openings(past, c) == 1 && c.state != Created <==>
                  (WayIn(actions) == Some(DoOpen) && again == 0) || (WayIn(actions) == Some(DoMove(Opened)) && again == 1))
            && (Openings(past, c) == 0 && c.state != Created <==> WayIn(actions) == Some(DoMove(Opened)) && again == 0)
  {
    FreshOpensNothing(cfg, past);
    WayInIs(actions);
    hide Run, Fresh, Sound, OwnBusiness, Openings, Reopenings, WayIn;
    RunOpens(cfg, past, Fresh(cfg, past), actions);
  }

  lemma FreshOpensNothing(cfg: Config, past: seq<LedgerEntry>)
    requires Loaded(cfg)
    ensures Sound(cfg, past, Fresh(cfg, past)) && Fresh(cfg, past).state == Created && Openings(past, Fresh(cfg, past)) == 0
  {
    assert Fresh(cfg, past).chain[|past|..] == [];
  }

  lemma {:induction false} WayInIs(actions: seq<Action>)
    ensures WayIn(actions).Some? ==> WayIn(actions) in {Some(DoOpen), Some(DoMove(Opened))}
  {
    if actions != [] {
      WayInIs(actions[1..]);
    }
  }

  /** The edge to OPEN is shared by `open`, `end_turn` and `resume`. Taken by `end_turn` first, it opens a
      session with nothing in the chain. */
  lemma OpensUnrecorded(cfg: Config, past: seq<LedgerEntry>)
    requires Loaded(cfg)
    ensures var c := Run(cfg, Fresh(cfg, past), [DoMove(Opened)]);
            c.state == Opened && c.chain == past && c.events == []
  {
    hide Written;
    var start := Fresh(cfg, past);
    StepKeepsBudgets(cfg, start, DoMove(Opened));
    assert [DoMove(Opened)][1..] == [];
    assert Run(cfg, Step(cfg, start, DoMove(Opened)), []) == Step(cfg, start, DoMove(Opened));
  }

  /** Taken by `open` in the middle of a turn, it records a second opening. */
  lemma OpensTwice(cfg: Config, past: seq<LedgerEntry>, agent: AgentId)
    requires Loaded(cfg) && agent in cfg.mandates && cfg.mandates[agent].maxSteps > 0 && cfg.mandates[agent].tokenBudget > 0
    ensures var c := Run(cfg, Fresh(cfg, past), [DoOpen, DoBegin(agent, 0), DoOpen]);
            Sound(cfg, past, c) && EventsOf(c.chain[|past|..]) == [SessionOpen, SessionOpen]
  {
    var a, b, c := Fresh(cfg, past), Step(cfg, Fresh(cfg, past), DoOpen), DoBegin(agent, 0);
    var turned := Step(cfg, b, c);
    var again := Step(cfg, turned, DoOpen);
    StepKeepsSound(cfg, past, a, DoOpen);
    StepKeepsSound(cfg, past, b, c);
    StepKeepsSound(cfg, past, turned, DoOpen);
    StepWritesMarkers(cfg, past, a, DoOpen);
    StepWritesMarkers(cfg, past, turned, DoOpen);
    OpenedState(cfg, past, agent);
    hide Step;
    RunThree(cfg, a, DoOpen, c, DoOpen);
    assert again.chain[|past|..] == b.chain[|past|..] + again.chain[|turned.chain|..];
    assert EventsOf(again.chain[|past|..]) == EventsOf(b.chain[|past|..]) + EventsOf(again.chain[|turned.chain|..]);
  }

  lemma OpenedState(cfg: Config, past: seq<LedgerEntry>, agent: AgentId)
    requires Loaded(cfg) && agent in cfg.mandates && cfg.mandates[agent].maxSteps > 0 && cfg.mandates[agent].tokenBudget > 0
    ensures var b := Step(cfg, Fresh(cfg, past), DoOpen);
            var turned := Step(cfg, b, DoBegin(agent, 0));
            && CanTransition(Fresh(cfg, past).state, Opened) && b.budgets.Keys == cfg.mandates.Keys
            && turned.budgets.Keys == cfg.mandates.Keys
            && turned.state == AgentTurn && turned.chain == b.chain && CanTransition(turned.state, Opened)
  {
    hide Written;
  }

  lemma RunThree(cfg: Config, c: Core, x: Action, y: Action, z: Action)
    requires Loaded(cfg) && c.budgets.Keys == cfg.mandates.Keys
    ensures Step(cfg, c, x).budgets.Keys == cfg.mandates.Keys
    ensures Step(cfg, Step(cfg, c, x), y).budgets.Keys == cfg.mandates.Keys
    ensures Run(cfg, c, [x, y, z]) == Step(cfg, Step(cfg, Step(cfg, c, x), y), z)
  {
    hide Step;
    StepKeepsBudgets(cfg, c, x);
    var d := Step(cfg, c, x);
    StepKeepsBudgets(cfg, d, y);
    var e := Step(cfg, d, y);
    StepKeepsBudgets(cfg, e, z);
    assert [x, y, z][1..] == [y, z] && [y, z][1..] == [z] && [z][1..] == [];
    assert Run(cfg, e, [z]) == Run(cfg, Step(cfg, e, z), []);
    assert Run(cfg, d, [y, z]) == Run(cfg, e, [z]);
  }

  /** A turn starts exactly for a known agent with a step left, tokens left and an estimate that fits
      them, in OPEN; it then books that one step and nothing else. Otherwise nothing changes. */
  lemma TurnStartsIff(c: Core, agent: AgentId, estimate: int)
    ensures var (d, start) := BeginTurn(c, agent, estimate);
            && (start == Started <==>
                  && c.state == Opened && agent in c.budgets && estimate >= 0
                  && c.budgets[agent].stepsTaken < c.budgets[agent].maxSteps
                  && c.budgets[agent].tokensSpent < c.budgets[agent].tokenBudget
                  && c.budgets[agent].tokensSpent + estimate <= c.budgets[agent].tokenBudget)
            && (start != Started ==> d == c)
            && (start == Started ==>
                  && d.state == AgentTurn && d.chain == c.chain && d.events == c.events && d.ticks == c.ticks
                  && d.budgets.Keys == c.budgets.Keys
                  && (forall b | b in c.budgets && b != agent :: d.budgets[b] == c.budgets[b])
                  && d.budgets[agent] == c.budgets[agent].(stepsTaken := c.budgets[agent].stepsTaken + 1))
  {
    var only := {Opened};
    assert forall s: SessionState :: CanTransition(s, AgentTurn) <==> s in only by {
      forall s: SessionState ensures CanTransition(s, AgentTurn) <==> s in only {
        match s {
          case Created =>
          case Opened =>
          case AgentTurn =>
          case AwaitingAnalyst =>
          case Closing =>
          case Closed =>
        }
      }
    }
  }

  /** What a caller is told when no turn starts: an unknown agent before anything else, then a negative estimate,
      then the step budget, then the token budget, and only then a state that allows no turn. */
  lemma TurnAnswers(c: Core, agent: AgentId, estimate: int)
    ensures var start := BeginTurn(c, agent, estimate).1;
            && (start == TurnRaised(UnknownAgent) <==> agent !in c.budgets)
            && (start == TurnRaised(ValueError) <==> agent in c.budgets && estimate < 0)
            && (agent in c.budgets && estimate >= 0 ==>
                  var b := c.budgets[agent];
                  && (start == TurnRefused(StepBudgetExhausted) <==> b.stepsTaken >= b.maxSteps)
                  && (start == TurnRefused(TokenBudgetExhausted) <==>
                        && b.stepsTaken < b.maxSteps
                        && (b.tokensSpent >= b.tokenBudget || b.tokensSpent + estimate > b.tokenBudget))
                  && (start == TurnRaised(IllegalTransition) <==>
                        && b.stepsTaken < b.maxSteps && b.tokensSpent < b.tokenBudget
                        && b.tokensSpent + estimate <= b.tokenBudget && c.state != Opened))
  {
    TurnStartsIff(c, agent, estimate);
  }
}
