/** The session state machine, its budgets and its view of the ledger (orchestrator/core.py). */
module Sessions {
  import opened Prelude
  import opened Canonical
  import opened Mandates
  import opened Ledgers
  import opened Gates

  datatype SessionState = Created | Opened | AgentTurn | AwaitingAnalyst | Closing | Closed

  /** What a caller gets back as an exception. */
  datatype Error = UnknownAgent | IllegalTransition | ValueError

  function Successors(s: SessionState): set<SessionState> {
    match s
    case Created => {Opened}
    case Opened => {AgentTurn, Closing}
    case AgentTurn => {Opened, AwaitingAnalyst, Closing}
    case AwaitingAnalyst => {Opened, Closing}
    case Closing => {Closed}
    case Closed => {}
  }

  predicate CanTransition(source: SessionState, target: SessionState) { target in Successors(source) }

  /** A ledger entry with the body it digested. */
  datatype RecordedEvent = RecordedEvent(entry: LedgerEntry, payload: Payload)

  /** What a session is constructed over, with the fleet's digest computed once. The clock is any
      sequence of timestamps. */
  datatype Config = Config(
    codec: Codec, clock: nat -> Text, mandates: map<AgentId, Mandate>, mandateHash: Mandate -> Hex,
    mandateSetHash: Hex)

  /** The constructor's checks: at least one mandate, each registered under its own agent. */
  ghost predicate Loaded(cfg: Config) {
    cfg.mandates != map[] && forall a | a in cfg.mandates :: cfg.mandates[a].agent == a
  }

  // ------------------------------------------------------------------
  // The mandate set digest
  // ------------------------------------------------------------------

  const MANDATE_SET_DOMAIN: string := "ts-sentry/session-mandate-set/v1"

  // sorted() over the agents' string values.
  const AGENT_ORDER: seq<AgentId> := [Evidence, Memo, PromptEval, Triage]

  lemma EveryAgentOrdered(a: AgentId)
    ensures a in AGENT_ORDER[..|AGENT_ORDER|]
  {
    var i := match a case Evidence => 0 case Memo => 1 case PromptEval => 2 case Triage => 3;
    assert AGENT_ORDER[..|AGENT_ORDER|][i] == a;
  }

  function BindingFields(mandates: map<AgentId, Mandate>, mandateHash: Mandate -> Hex, agents: seq<AgentId>): seq<string> {
    if agents == [] then []
    else
      var rest := BindingFields(mandates, mandateHash, agents[1..]);
      if agents[0] in mandates then [AgentName(agents[0]) + "=" + mandateHash(mandates[agents[0]])] + rest else rest
  }

  lemma {:induction false} BindingFieldsClean(mandates: map<AgentId, Mandate>, mandateHash: Mandate -> Hex,
                                              agents: seq<AgentId>)
    ensures AllClean(BindingFields(mandates, mandateHash, agents))
  {
    if agents != [] {
      BindingFieldsClean(mandates, mandateHash, agents[1..]);
      if agents[0] in mandates {
        var h := mandateHash(mandates[agents[0]]);
        HexIsClean(h);
        assert Clean(AgentName(agents[0]));
        assert Clean(AgentName(agents[0]) + "=" + h);
      }
    }
  }

  /** mandate_set_hash: one digest over the whole loaded fleet. */
  function MandateSetHash(h: Hasher, mandates: map<AgentId, Mandate>, mandateHash: Mandate -> Hex): Hex {
    var fields := [MANDATE_SET_DOMAIN] + BindingFields(mandates, mandateHash, AGENT_ORDER);
    BindingFieldsClean(mandates, mandateHash, AGENT_ORDER);
    assert Clean(MANDATE_SET_DOMAIN);
    Digest(h, fields)
  }

  // The first binding names an agent of the list, by its first letter already.
  lemma {:induction false} FirstBinding(mandates: map<AgentId, Mandate>, mandateHash: Mandate -> Hex, agents: seq<AgentId>)
    ensures var fields := BindingFields(mandates, mandateHash, agents);
            fields != [] ==> fields[0] != "" && exists a :: a in agents && fields[0][0] == AgentName(a)[0]
  {
    if agents != [] {
      FirstBinding(mandates, mandateHash, agents[1..]);
      assert agents == [agents[0]] + agents[1..];
    }
  }

  lemma SameBinding(a: AgentId, x: Hex, y: Hex)
    ensures AgentName(a) + "=" + x == AgentName(a) + "=" + y ==> x == y
  {
    var name := AgentName(a) + "=";
    assert (name + x)[|name|..] == x && (name + y)[|name|..] == y;
  }

  lemma NameLetter(a: AgentId, b: AgentId)
    ensures |AgentName(a)| > 0 && (AgentName(a)[0] == AgentName(b)[0] ==> a == b)
  {
  }

  // The first field of the rest belongs to an agent of the rest.
  lemma OthersBinding(mandates: map<AgentId, Mandate>, mandateHash: Mandate -> Hex, agents: seq<AgentId>, a: AgentId, x: Hex)
    requires a !in agents
    ensures var fields := BindingFields(mandates, mandateHash, agents);
            fields != [] ==> fields[0] != AgentName(a) + "=" + x
  {
    FirstBinding(mandates, mandateHash, agents);
    var fields := BindingFields(mandates, mandateHash, agents);
    if fields != [] {
      var b :| b in agents && fields[0][0] == AgentName(b)[0];
      NameLetter(a, b);
      hide AgentName;
      assert (AgentName(a) + "=" + x)[0] == AgentName(a)[0];
    }
  }

  lemma {:induction false} BindingsInjective(m: map<AgentId, Mandate>, n: map<AgentId, Mandate>, mandateHash: Mandate -> Hex,
                                             agents: seq<AgentId>)
    requires Distinct(agents)
    requires BindingFields(m, mandateHash, agents) == BindingFields(n, mandateHash, agents)
    ensures forall a | a in agents :: (a in m <==> a in n) && (a in m ==> mandateHash(m[a]) == mandateHash(n[a]))
    decreases |agents|
  {
    hide AgentName;
    if agents != [] {
      var a := agents[0];
      var f, g := BindingFields(m, mandateHash, agents), BindingFields(n, mandateHash, agents);
      assert agents == [a] + agents[1..] && a !in agents[1..];
      if a in m && a in n {
        SameBinding(a, mandateHash(m[a]), mandateHash(n[a]));
        assert f[1..] == BindingFields(m, mandateHash, agents[1..]) && g[1..] == BindingFields(n, mandateHash, agents[1..]);
      } else if a in m {
        OthersBinding(n, mandateHash, agents[1..], a, mandateHash(m[a]));
      } else if a in n {
        OthersBinding(m, mandateHash, agents[1..], a, mandateHash(n[a]));
      }
      BindingsInjective(m, n, mandateHash, agents[1..]);
    }
  }

  /** Swapping, adding or dropping any one mandate changes the set's digest, unless SHA-256 collides
      on the two encodings. */
  lemma MandateSetHashBinds(h: Hasher, m: map<AgentId, Mandate>, n: map<AgentId, Mandate>, mandateHash: Mandate -> Hex)
    requires MandateSetHash(h, m, mandateHash) == MandateSetHash(h, n, mandateHash)
    ensures var s := Join([MANDATE_SET_DOMAIN] + BindingFields(m, mandateHash, AGENT_ORDER));
            var t := Join([MANDATE_SET_DOMAIN] + BindingFields(n, mandateHash, AGENT_ORDER));
            || (s != t && h(s) == h(t))
            || (m.Keys == n.Keys && forall a | a in m :: mandateHash(m[a]) == mandateHash(n[a]))
  {
    hide BindingFields;
    var f := [MANDATE_SET_DOMAIN] + BindingFields(m, mandateHash, AGENT_ORDER);
    var g := [MANDATE_SET_DOMAIN] + BindingFields(n, mandateHash, AGENT_ORDER);
    if Join(f) == Join(g) {
      BindingFieldsClean(m, mandateHash, AGENT_ORDER);
      BindingFieldsClean(n, mandateHash, AGENT_ORDER);
      assert Clean(MANDATE_SET_DOMAIN);
      JoinInjective(f, g);
      assert f[1..] == g[1..];
      BindingsInjective(m, n, mandateHash, AGENT_ORDER);
      forall a: AgentId ensures a in AGENT_ORDER {
        EveryAgentOrdered(a);
      }
    }
  }

  /** The agents are digested in the order of their names. */
  lemma AgentOrderIsSorted(i: nat, j: nat)
    requires i < j < |AGENT_ORDER|
    ensures Precedes(AgentName(AGENT_ORDER[i]), AgentName(AGENT_ORDER[j]))
  {
  }

  /** The mandate hash an entry carries: the agent's own, or the whole set's. */
  function BindingHash(cfg: Config, agent: Option<AgentId>): Hex
    requires agent.Some? ==> agent.value in cfg.mandates
  {
    match agent
    case None => cfg.mandateSetHash
    case Some(a) => cfg.mandateHash(cfg.mandates[a])
  }

  // ------------------------------------------------------------------
  // The session as a value
  // ------------------------------------------------------------------

  /** Everything a session's behaviour depends on: the stored chain, the recorded events, the
      state, the budgets, and how often the clock was read. */
  datatype Core = Core(
    chain: seq<LedgerEntry>, events: seq<RecordedEvent>, state: SessionState,
    budgets: map<AgentId, Budget>, ticks: nat)

  /** A session just constructed over a ledger. */
  function Fresh(cfg: Config, past: seq<LedgerEntry>): Core {
    Core(past, [], Created,
         map a | a in cfg.mandates :: Budget(cfg.mandates[a].tokenBudget, 0, cfg.mandates[a].maxSteps, 0), 0)
  }

  /** The entry append_event writes next. */
  function NewEntry(cfg: Config, c: Core, event: EventType, agent: Option<AgentId>, p: Payload): LedgerEntry
    requires agent.Some? ==> agent.value in cfg.mandates
  {
    Written(cfg.codec, c.chain, cfg.clock(c.ticks), agent, BindingHash(cfg, agent), event, p)
  }

  /** append_event: one clock reading, one entry, one recorded event. */
  function Note(cfg: Config, c: Core, event: EventType, agent: Option<AgentId>, p: Payload): Core
    requires agent.Some? ==> agent.value in cfg.mandates
  {
    var entry := NewEntry(cfg, c, event, agent, p);
    c.(chain := c.chain + [entry], events := c.events + [RecordedEvent(entry, p)], ticks := c.ticks + 1)
  }

  function CheckBudget(b: Budget, estimate: nat, requireStep: bool): Option<CloseReason> {
    if requireStep && b.maxSteps - b.stepsTaken <= 0 then Some(StepBudgetExhausted)
    else if b.tokenBudget - b.tokensSpent <= 0 || estimate > b.tokenBudget - b.tokensSpent then Some(TokenBudgetExhausted)
    else None
  }

  datatype TurnStart = Started | TurnRefused(reason: CloseReason) | TurnRaised(error: Error)

  function BeginTurn(c: Core, agent: AgentId, estimate: int): (Core, TurnStart) {
    if agent !in c.budgets then (c, TurnRaised(UnknownAgent))
    else if estimate < 0 then (c, TurnRaised(ValueError))
    else
      var b := c.budgets[agent];
      var reason := CheckBudget(b, estimate, true);
      if reason.Some? then (c, TurnRefused(reason.value))
      else if !CanTransition(c.state, AgentTurn) then (c, TurnRaised(IllegalTransition))
      else (c.(state := AgentTurn, budgets := c.budgets[agent := b.(stepsTaken := b.stepsTaken + 1)]), Started)
  }

  /** end_turn, await_analyst and resume: one edge, or an IllegalTransition and no change. */
  function Move(c: Core, target: SessionState): (Core, bool) {
    if CanTransition(c.state, target) then (c.(state := target), true) else (c, false)
  }

  function Open(cfg: Config, c: Core): (Core, bool) {
    if !CanTransition(c.state, Opened) then (c, false)
    else (Note(cfg, c.(state := Opened), SessionOpen, None, OpenedPayload(cfg.mandateSetHash)), true)
  }

  function EventCounts(events: seq<RecordedEvent>): map<EventType, nat> {
    if events == [] then map[]
    else
      var before := EventCounts(events[..|events| - 1]);
      var key := events[|events| - 1].entry.event;
      before[key := (if key in before then before[key] else 0) + 1]
  }

  function Close(cfg: Config, c: Core, reason: CloseReason): (Core, Option<ChainHead>) {
    if !CanTransition(c.state, Closing) then (c, None)
    else
      var closed := Note(cfg, c.(state := Closing), SessionClose, None, ClosedPayload(reason, EventCounts(c.events), c.budgets));
      (closed.(state := Closed), Some(TailOf(closed.chain)))
  }

  // ------------------------------------------------------------------
  // The session's account of the chain
  // ------------------------------------------------------------------

  /** The recorded events are exactly what the chain gained since past, in order, once each, and
      every body digests to its entry. */
  ghost predicate Accounted(codec: Codec, past: seq<LedgerEntry>, c: Core) {
    && |c.chain| == |past| + |c.events|
    && past <= c.chain
    && (forall i | 0 <= i < |c.events| ::
          c.events[i].entry == c.chain[|past| + i]
          && PayloadDigest(codec, c.events[i].payload) == c.events[i].entry.payloadDigest)
  }

  /** The ledger behind a session holds what an intact past plus its own events add up to. */
  ghost predicate Sound(cfg: Config, past: seq<LedgerEntry>, c: Core) {
    && Accounted(cfg.codec, past, c)
    && (Intact(cfg.codec.hash, past) ==> Intact(cfg.codec.hash, c.chain))
    && c.budgets.Keys == cfg.mandates.Keys
  }

  lemma WrittenIsFaithful(codec: Codec, chain: seq<LedgerEntry>, ts: Text, agent: Option<AgentId>, mandateHash: Hex,
                          event: EventType, p: Payload)
    ensures var e := Written(codec, chain, ts, agent, mandateHash, event, p);
            && e.event == event && e.agent == agent && e.mandateHash == mandateHash && e.timestamp == ts
            && e.payloadDigest == PayloadDigest(codec, p)
            && (Intact(codec.hash, chain) ==> Intact(codec.hash, chain + [e]))
  {
    if Intact(codec.hash, chain) {
      AppendKeepsIntact(codec.hash, chain, ts, agent, mandateHash, event, PayloadDigest(codec, p));
    }
  }

  // Filing one more entry with its body keeps the account.
  lemma FilingKeepsSound(cfg: Config, past: seq<LedgerEntry>, c: Core, ts: Text, agent: Option<AgentId>,
                         mandateHash: Hex, event: EventType, p: Payload, c': Core)
    requires Sound(cfg, past, c)
    requires var e := Written(cfg.codec, c.chain, ts, agent, mandateHash, event, p);
             c'.chain == c.chain + [e] && c'.events == c.events + [RecordedEvent(e, p)]
    requires c'.budgets.Keys == c.budgets.Keys
    ensures Sound(cfg, past, c')
  {
    WrittenIsFaithful(cfg.codec, c.chain, ts, agent, mandateHash, event, p);
  }

  lemma NoteKeepsSound(cfg: Config, past: seq<LedgerEntry>, c: Core, event: EventType, agent: Option<AgentId>, p: Payload)
    requires agent.Some? ==> agent.value in cfg.mandates
    requires Sound(cfg, past, c)
    ensures Sound(cfg, past, Note(cfg, c, event, agent, p))
  {
    FilingKeepsSound(cfg, past, c, cfg.clock(c.ticks), agent, BindingHash(cfg, agent), event, p,
                     Note(cfg, c, event, agent, p));
  }

  // ------------------------------------------------------------------
  // The objects
  // ------------------------------------------------------------------

  class BudgetTracker {
    const agent: AgentId
    const tokenBudget: int
    const maxSteps: int
    var tokensSpent: nat
    var stepsTaken: nat

    constructor (m: Mandate)
      ensures Snapshot() == Budget(m.tokenBudget, 0, m.maxSteps, 0) && agent == m.agent
    {
      agent := m.agent;
      tokenBudget, maxSteps := m.tokenBudget, m.maxSteps;
      tokensSpent, stepsTaken := 0, 0;
    }

    function Snapshot(): Budget
      reads this
    {
      Budget(tokenBudget, tokensSpent, maxSteps, stepsTaken)
    }

    /** None when the work may proceed, otherwise why it may not; a negative estimate is an error. */
    method Check(estimate: int, requireStep: bool) returns (r: Result<Option<CloseReason>, Error>)
      ensures r == if estimate < 0 then Err(ValueError) else Ok(CheckBudget(Snapshot(), estimate, requireStep))
    {
      if estimate < 0 {
        return Err(ValueError);
      }
      var snapshot := Snapshot();
      if requireStep && snapshot.maxSteps - snapshot.stepsTaken <= 0 {
        return Ok(Some(StepBudgetExhausted));
      }
      var remaining := snapshot.tokenBudget - snapshot.tokensSpent;
      if remaining <= 0 || estimate > remaining {
        return Ok(Some(TokenBudgetExhausted));
      }
      return Ok(None);
    }

    method RecordStep()
      modifies this
      ensures Snapshot() == old(Snapshot()).(stepsTaken := old(stepsTaken) + 1)
    {
      stepsTaken := stepsTaken + 1;
    }

    /** A negative count is an error and books nothing. */
    method RecordTokens(tokens: int) returns (ok: bool)
      modifies this
      ensures ok <==> tokens >= 0
      ensures Snapshot() == if ok then old(Snapshot()).(tokensSpent := old(tokensSpent) + tokens) else old(Snapshot())
    {
      ok := tokens >= 0;
      if ok {
        tokensSpent := tokensSpent + tokens;
      }
    }
  }

  // One fresh tracker per loaded mandate.
  method NewTrackers(cfg: Config) returns (trackers: map<AgentId, BudgetTracker>)
    requires Loaded(cfg)
    ensures trackers.Keys == cfg.mandates.Keys && fresh(trackers.Values)
    ensures forall a | a in trackers ::
              trackers[a].agent == a
              && trackers[a].Snapshot() == Budget(cfg.mandates[a].tokenBudget, 0, cfg.mandates[a].maxSteps, 0)
  {
    trackers := map[];
    for i := 0 to |AGENT_ORDER|
      invariant trackers.Keys == set a | a in AGENT_ORDER[..i] && a in cfg.mandates
      invariant fresh(trackers.Values)
      invariant forall a | a in trackers :: trackers[a].agent == a
      invariant forall a | a in trackers ::
                  trackers[a].Snapshot() == Budget(cfg.mandates[a].tokenBudget, 0, cfg.mandates[a].maxSteps, 0)
    {
      var agent := AGENT_ORDER[i];
      if agent in cfg.mandates {
        var tracker := new BudgetTracker(cfg.mandates[agent]);
        assert trackers[agent := tracker].Values <= trackers.Values + {tracker};
        trackers := trackers[agent := tracker];
      }
    }
    forall a: AgentId ensures a in AGENT_ORDER[..|AGENT_ORDER|] {
      EveryAgentOrdered(a);
    }
  }

  class Session {
    const cfg: Config
    const ledger: Ledger
    const budgets: map<AgentId, BudgetTracker>
    ghost const trackers: set<BudgetTracker>
    var state: SessionState
    var events: seq<RecordedEvent>
    var ticks: nat

    // The parts that never change: one tracker of its own for every loaded mandate.
    ghost predicate Assembled() {
      && Loaded(cfg)
      && ledger.hash == cfg.codec.hash
      && budgets.Keys == cfg.mandates.Keys
      && (forall a | a in budgets :: budgets[a].agent == a && budgets[a] in trackers)
    }

    /** The objects are wired as the constructor wired them. */
    ghost predicate Wired()
      reads ledger
    {
      Assembled() && ledger.Cached()
    }

    function Budgets(): map<AgentId, Budget>
      requires Assembled()
      reads trackers
    {
      map a | a in budgets :: budgets[a].Snapshot()
    }

    ghost function View(): Core
      requires Assembled()
      reads this, ledger, trackers
    {
      Core(ledger.table, events, state, Budgets(), ticks)
    }

    /** A new session has recorded nothing and spent nothing, whatever its ledger already holds. */
    constructor (codec: Codec, clock: nat -> Text, mandates: map<AgentId, Mandate>, mandateHash: Mandate -> Hex,
                 ledger: Ledger)
      requires mandates != map[] && forall a | a in mandates :: mandates[a].agent == a
      requires ledger.Cached() && ledger.hash == codec.hash
      ensures cfg == Config(codec, clock, mandates, mandateHash, MandateSetHash(codec.hash, mandates, mandateHash))
      ensures Wired() && this.ledger == ledger && fresh(trackers)
      ensures View() == Fresh(cfg, ledger.table)
    {
      var cfg := Config(codec, clock, mandates, mandateHash, MandateSetHash(codec.hash, mandates, mandateHash));
      var trackers := NewTrackers(cfg);
      this.cfg := cfg;
      this.ledger := ledger;
      this.budgets := trackers;
      this.trackers := trackers.Values;
      state := Created;
      events := [];
      ticks := 0;
    }

    /** The session's clock, for helpers that stamp their own writes. */
    method Now() returns (ts: Text)
      requires Wired()
      modifies this`ticks
      ensures Wired() && ts == cfg.clock(old(ticks))
      ensures View() == old(View()).(ticks := old(ticks) + 1)
    {
      ts := cfg.clock(ticks);
      ticks := ticks + 1;
    }

    method AppendEvent(event: EventType, agent: Option<AgentId>, p: Payload) returns (recorded: RecordedEvent)
      requires Wired() && (agent.Some? ==> agent.value in cfg.mandates)
      modifies this`events, this`ticks, ledger
      ensures Wired() && View() == Note(cfg, old(View()), event, agent, p)
      ensures recorded == RecordedEvent(NewEntry(cfg, old(View()), event, agent, p), p)
    {
      var bindingHash := BindingHash(cfg, agent);
      var ts := Now();
      var entry := Write(ledger, cfg.codec, ts, agent, bindingHash, event, p);
      recorded := RecordedEvent(entry, p);
      events := events + [recorded];
    }

    /** attach_event: files an entry a helper wrote, unless the body does not digest to it. */
    method AttachEvent(entry: LedgerEntry, p: Payload) returns (ok: bool)
      requires Wired()
      modifies this`events
      ensures Wired() && (ok <==> PayloadDigest(cfg.codec, p) == entry.payloadDigest)
      ensures View() == if ok then old(View()).(events := old(events) + [RecordedEvent(entry, p)]) else old(View())
    {
      ok := PayloadDigest(cfg.codec, p) == entry.payloadDigest;
      if ok {
        events := events + [RecordedEvent(entry, p)];
      }
    }

    method Transition(target: SessionState) returns (ok: bool)
      requires Wired()
      modifies this`state
      ensures Wired() && (View(), ok) == Move(old(View()), target)
    {
      ok := CanTransition(state, target);
      if ok {
        state := target;
      }
    }

    method OpenSession() returns (ok: bool)
      requires Wired()
      modifies this`state, this`events, this`ticks, ledger
      ensures Wired() && (View(), ok) == Open(cfg, old(View()))
    {
      ok := Transition(Opened);
      if ok {
        var recorded := AppendEvent(SessionOpen, None, OpenedPayload(cfg.mandateSetHash));
      }
    }

    method BookStep(agent: AgentId)
      requires Wired() && agent in budgets
      modifies budgets[agent]
      ensures Wired()
      ensures View() == var c := old(View());
                        c.(budgets := c.budgets[agent := c.budgets[agent].(stepsTaken := c.budgets[agent].stepsTaken + 1)])
    {
      budgets[agent].RecordStep();
      assert Budgets() == old(Budgets())[agent := budgets[agent].Snapshot()];
    }

    method BookTokens(agent: AgentId, tokens: nat)
      requires Wired() && agent in budgets
      modifies budgets[agent]
      ensures Wired()
      ensures View() == var c := old(View());
                        c.(budgets := c.budgets[agent := c.budgets[agent].(tokensSpent := c.budgets[agent].tokensSpent + tokens)])
    {
      var ok := budgets[agent].RecordTokens(tokens);
      assert Budgets() == old(Budgets())[agent := budgets[agent].Snapshot()];
    }

    method StartTurn(agent: AgentId, estimate: int) returns (start: TurnStart)
      requires Wired()
      modifies this`state, trackers
      ensures Wired() && (View(), start) == BeginTurn(old(View()), agent, estimate)
    {
      hide Successors;
      if agent !in budgets {
        return TurnRaised(UnknownAgent);
      }
      var tracker := budgets[agent];
      var checked := tracker.Check(estimate, true);
      if checked.Err? {
        return TurnRaised(checked.error);
      }
      if checked.value.Some? {
        return TurnRefused(checked.value.value);
      }
      ghost var c := View();
      assert c.budgets[agent] == tracker.Snapshot();
      var ok := Transition(AgentTurn);
      if !ok {
        assert View() == c;
        return TurnRaised(IllegalTransition);
      }
      assert View() == c.(state := AgentTurn);
      BookStep(agent);
      start := Started;
    }

    method Counts() returns (counts: map<EventType, nat>)
      ensures counts == EventCounts(events)
    {
      counts := map[];
      for i := 0 to |events|
        invariant counts == EventCounts(events[..i])
      {
        assert events[..i + 1][..i] == events[..i];
        var key := events[i].entry.event;
        counts := counts[key := (if key in counts then counts[key] else 0) + 1];
      }
      assert events[..|events|] == events;
    }

    // SESSION_CLOSE, with counts that leave the entry itself out.
    method RecordClose(reason: CloseReason)
      requires Wired()
      modifies this`events, this`ticks, ledger
      ensures Wired()
      ensures View() == var c := old(View());
                        Note(cfg, c, SessionClose, None, ClosedPayload(reason, EventCounts(c.events), c.budgets))
    {
      var counts := Counts();
      var recorded := AppendEvent(SessionClose, None, ClosedPayload(reason, counts, Budgets()));
    }

    method CloseSession(reason: CloseReason) returns (head: Option<ChainHead>)
      requires Wired()
      modifies this`state, this`events, this`ticks, ledger
      ensures Wired() && (View(), head) == Close(cfg, old(View()), reason)
    {
      ghost var c := View();
      var ok := Transition(Closing);
      if !ok {
        return None;
      }
      assert View() == c.(state := Closing);
      RecordClose(reason);
      Finish();
      head := Some(ledger.Head());
    }

    method Finish()
      requires Wired() && state == Closing
      modifies this`state
      ensures Wired() && View() == old(View()).(state := Closed)
    {
      var ok := Transition(Closed);
    }
  }
}
