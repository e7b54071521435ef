/** The consequence gate and the scope guard (governance/gates.py). Both write the ledger
    themselves and hand back what they wrote. */
module Gates {
  import opened Prelude
  import opened Canonical
  import opened Mandates
  import opened Ledgers
  import opened Artifacts

  datatype FailureCode =
    | SchemaInvalid
    | ReferentialIntegrity
    | ProvenanceIncomplete
    | UnverifiedClaim
    | EnforceRequiresHumanSignature
    | CheckerError

  /** A failure, with the sentence its detail names if it names one. */
  datatype GateFailure = GateFailure(code: FailureCode, sentence: Option<nat>)

  datatype CheckAnswer = Found(failures: seq<GateFailure>) | CheckerRaised

  /** The checkers a gate run may invoke: any total functions of the artifact. */
  datatype GateChecks = GateChecks(assemble: Artifact -> CheckAnswer, recommend: Artifact -> CheckAnswer)

  datatype HumanDecisionKind = ApproveEnforcement | RejectEnforcement | DeferEnforcement

  datatype CloseReason =
    | Completed
    | TokenBudgetExhausted
    | StepBudgetExhausted
    | AnalystAbort
    | DispatchError

  datatype Budget = Budget(tokenBudget: int, tokensSpent: nat, maxSteps: int, stepsTaken: nat)

  /** The bodies whose digests the chain stores. */
  datatype Payload =
    | OpenedPayload(mandateSet: Hex)
    | ClosedPayload(reason: CloseReason, counts: map<EventType, nat>, budgets: map<AgentId, Budget>)
    | ScopePayload(requestedScope: string, scopeCode: RefusalCode, scopeAgent: AgentId)
    | RefusalPayload(agent: AgentId, toolName: string, requestedScopes: seq<string>, code: RefusalCode)
    | CalledPayload(tool: ToolId, consequence: Consequence, granted: set<DataScope>)
    | ResultPayload(resultTool: ToolId, ok: bool)
    | SchemaPayload(schemaTool: ToolId)
    | GatePayload(gateConsequence: Consequence, failures: seq<GateFailure>, event: EventType)
    | PromptPayload(estimatedTokens: nat)
    | AdapterErrorPayload
    | VerdictPayload(accepted: bool)
    | ReviewPayload(hopIndex: nat, approved: bool)

  /** How bodies become digests: canonical JSON, which carries no raw control character, then SHA-256. */
  datatype Codec = Codec(hash: Hasher, json: Payload -> Text)

  function PayloadDigest(codec: Codec, p: Payload): Hex {
    Digest(codec.hash, [codec.json(p)])
  }

  /** One entry written behind the tail of a table. */
  function Written(codec: Codec, table: seq<LedgerEntry>, ts: Text, agent: Option<AgentId>, mandateHash: Hex,
                   event: EventType, p: Payload): LedgerEntry
  {
    NextEntry(codec.hash, TailOf(table), ts, agent, mandateHash, event, PayloadDigest(codec, p))
  }

  // ------------------------------------------------------------------
  // The consequence gate
  // ------------------------------------------------------------------

  datatype GateOutcome = GateOutcome(
    accepted: bool, consequence: Consequence, failures: seq<GateFailure>,
    ledgered: seq<LedgerEntry>, payloads: seq<Payload>)

  // A checker that raises rejects: fail-closed.
  function RunCheck(check: Artifact -> CheckAnswer, artifact: Artifact): seq<GateFailure> {
    match check(artifact)
    case Found(failures) => failures
    case CheckerRaised => [GateFailure(CheckerError, None)]
  }

  function CheckSignature(signature: Option<HumanDecisionKind>): seq<GateFailure> {
    if signature == Some(ApproveEnforcement) then []
    else [GateFailure(EnforceRequiresHumanSignature, None)]
  }

  function Evaluate(consequence: Consequence, artifact: Artifact, checks: GateChecks,
                    signature: Option<HumanDecisionKind>): seq<GateFailure>
  {
    match consequence
    case Observe => []
    case Assemble => RunCheck(checks.assemble, artifact)
    case Recommend => RunCheck(checks.recommend, artifact)
    case Enforce => CheckSignature(signature)
  }

  function RejectionEvents(consequence: Consequence, signature: Option<HumanDecisionKind>): seq<EventType> {
    if consequence == Enforce && signature == None then [MandateViolationAttempt, GateRejection]
    else [VerificationFail, GateRejection]
  }

  function GateEvents(consequence: Consequence, failures: seq<GateFailure>,
                      signature: Option<HumanDecisionKind>): seq<EventType>
  {
    if failures != [] then RejectionEvents(consequence, signature)
    else if consequence == Enforce then [HumanDecision]
    else [VerificationPass]
  }

  // The entries one gate run writes, in order.
  function GateEntries(codec: Codec, table: seq<LedgerEntry>, ts: Text, agent: Option<AgentId>, mandateHash: Hex,
                       consequence: Consequence, failures: seq<GateFailure>, events: seq<EventType>)
    : (entries: seq<LedgerEntry>)
    ensures |entries| == |events|
    ensures forall i | 0 <= i < |events| ::
              entries[i].event == events[i]
              && entries[i].payloadDigest == PayloadDigest(codec, GatePayload(consequence, failures, events[i]))
    decreases |events|
  {
    if events == [] then []
    else
      var n := |events| - 1;
      var before := GateEntries(codec, table, ts, agent, mandateHash, consequence, failures, events[..n]);
      before + [Written(codec, table + before, ts, agent, mandateHash, events[n],
                        GatePayload(consequence, failures, events[n]))]
  }

  function GatePayloads(consequence: Consequence, failures: seq<GateFailure>, events: seq<EventType>): seq<Payload> {
    seq(|events|, i requires 0 <= i < |events| => GatePayload(consequence, failures, events[i]))
  }

  function Gate(codec: Codec, table: seq<LedgerEntry>, ts: Text, agent: Option<AgentId>, mandateHash: Hex,
                consequence: Consequence, artifact: Artifact, checks: GateChecks,
                signature: Option<HumanDecisionKind>): GateOutcome
  {
    var failures := Evaluate(consequence, artifact, checks, signature);
    var events := GateEvents(consequence, failures, signature);
    GateOutcome(failures == [], consequence, failures,
                GateEntries(codec, table, ts, agent, mandateHash, consequence, failures, events),
                GatePayloads(consequence, failures, events))
  }

  // Every entry of this system is written here: one payload, digested and appended.
  method Write(ledger: Ledger, codec: Codec, ts: Text, agent: Option<AgentId>, mandateHash: Hex,
               event: EventType, p: Payload)
    returns (entry: LedgerEntry)
    requires ledger.Cached() && ledger.hash == codec.hash
    modifies ledger
    ensures ledger.Cached()
    ensures entry == Written(codec, old(ledger.table), ts, agent, mandateHash, event, p)
    ensures ledger.table == old(ledger.table) + [entry]
  {
    entry := ledger.Append(ts, agent, mandateHash, event, PayloadDigest(codec, p));
  }

  lemma GateEntriesStep(codec: Codec, table: seq<LedgerEntry>, ts: Text, agent: Option<AgentId>, mandateHash: Hex,
                        consequence: Consequence, failures: seq<GateFailure>, events: seq<EventType>, i: nat)
    requires i < |events|
    ensures var before := GateEntries(codec, table, ts, agent, mandateHash, consequence, failures, events[..i]);
            GateEntries(codec, table, ts, agent, mandateHash, consequence, failures, events[..i + 1])
            == before + [Written(codec, table + before, ts, agent, mandateHash, events[i],
                                 GatePayload(consequence, failures, events[i]))]
  {
    assert events[..i + 1][..i] == events[..i];
  }

  // Appends the events of one verdict, one entry each.
  method WriteEvents(ledger: Ledger, codec: Codec, ts: Text, agent: Option<AgentId>, mandateHash: Hex,
                     consequence: Consequence, failures: seq<GateFailure>, events: seq<EventType>)
    returns (ledgered: seq<LedgerEntry>)
    requires ledger.Cached() && ledger.hash == codec.hash
    modifies ledger
    ensures ledger.Cached()
    ensures ledgered == GateEntries(codec, old(ledger.table), ts, agent, mandateHash, consequence, failures, events)
    ensures ledger.table == old(ledger.table) + ledgered
  {
    hide Written;
    ghost var table := ledger.table;
    ledgered := [];
    for i := 0 to |events|
      invariant ledger.Cached()
      invariant ledgered == GateEntries(codec, table, ts, agent, mandateHash, consequence, failures, events[..i])
      invariant ledger.table == table + ledgered
    {
      GateEntriesStep(codec, table, ts, agent, mandateHash, consequence, failures, events, i);
      var entry := Write(ledger, codec, ts, agent, mandateHash, events[i], GatePayload(consequence, failures, events[i]));
      ledgered := ledgered + [entry];
    }
    assert events[..|events|] == events;
  }

  /** run_gate: judge, then write every event the verdict calls for. */
  method RunGate(ledger: Ledger, codec: Codec, ts: Text, agent: Option<AgentId>, mandateHash: Hex,
                 consequence: Consequence, artifact: Artifact, checks: GateChecks,
                 signature: Option<HumanDecisionKind>)
    returns (outcome: GateOutcome)
    requires ledger.Cached() && ledger.hash == codec.hash
    modifies ledger
    ensures ledger.Cached()
    ensures outcome == Gate(codec, old(ledger.table), ts, agent, mandateHash, consequence, artifact, checks, signature)
    ensures ledger.table == old(ledger.table) + outcome.ledgered
  {
    var failures := Evaluate(consequence, artifact, checks, signature);
    var events := GateEvents(consequence, failures, signature);
    var ledgered := WriteEvents(ledger, codec, ts, agent, mandateHash, consequence, failures, events);
    outcome := GateOutcome(failures == [], consequence, failures, ledgered,
                           GatePayloads(consequence, failures, events));
  }

  /** Every entry a gate run writes digests to the body handed back beside it. */
  lemma GateBodiesMatch(codec: Codec, table: seq<LedgerEntry>, ts: Text, agent: Option<AgentId>, mandateHash: Hex,
                        consequence: Consequence, artifact: Artifact, checks: GateChecks,
                        signature: Option<HumanDecisionKind>)
    ensures var g := Gate(codec, table, ts, agent, mandateHash, consequence, artifact, checks, signature);
            && |g.ledgered| == |g.payloads|
            && (forall i | 0 <= i < |g.ledgered| ::
                  g.ledgered[i].payloadDigest == PayloadDigest(codec, g.payloads[i]))
  {
  }

  /** What a gate run leaves behind tells its verdict, and a human decision is left exactly for an approved ENFORCE. */
  lemma GateVerdictIsWritten(codec: Codec, table: seq<LedgerEntry>, ts: Text, agent: Option<AgentId>,
                             mandateHash: Hex, consequence: Consequence, artifact: Artifact, checks: GateChecks,
                             signature: Option<HumanDecisionKind>)
    ensures var g := Gate(codec, table, ts, agent, mandateHash, consequence, artifact, checks, signature);
            && |g.ledgered| == |g.payloads| > 0
            && (g.accepted <==> g.ledgered[|g.ledgered| - 1].event != GateRejection)
            && (g.accepted <==> g.failures == [])
            && ((exists e :: e in g.ledgered && e.event == HumanDecision) <==>
                (consequence == Enforce && signature == Some(ApproveEnforcement)))
  {
    var g := Gate(codec, table, ts, agent, mandateHash, consequence, artifact, checks, signature);
    if consequence == Enforce && signature == Some(ApproveEnforcement) {
      assert g.ledgered[0] in g.ledgered && g.ledgered[0].event == HumanDecision;
    }
  }

  /** What each consequence takes: nothing at OBSERVE, a clean answer of its own checker at ASSEMBLE and at
      RECOMMEND, where raising is no answer, and an approving human signature at ENFORCE. */
  lemma GateAccepts(consequence: Consequence, artifact: Artifact, checks: GateChecks, signature: Option<HumanDecisionKind>)
    ensures var failures := Evaluate(consequence, artifact, checks, signature);
            && (consequence == Observe ==> failures == [])
            && (consequence == Assemble ==> (failures == [] <==> checks.assemble(artifact) == Found([])))
            && (consequence == Recommend ==> (failures == [] <==> checks.recommend(artifact) == Found([])))
            && (consequence == Enforce ==> (failures == [] <==> signature == Some(ApproveEnforcement)))
  {
  }

  /** What a gate reports as wrong: at ASSEMBLE and RECOMMEND what the checker found, or that it raised; at ENFORCE
      the missing signature. */
  lemma GateReports(artifact: Artifact, checks: GateChecks, signature: Option<HumanDecisionKind>)
    ensures forall fs :: checks.assemble(artifact) == Found(fs) ==> Evaluate(Assemble, artifact, checks, signature) == fs
    ensures forall fs :: checks.recommend(artifact) == Found(fs) ==> Evaluate(Recommend, artifact, checks, signature) == fs
    ensures checks.assemble(artifact) == CheckerRaised ==>
              Evaluate(Assemble, artifact, checks, signature) == [GateFailure(CheckerError, None)]
    ensures checks.recommend(artifact) == CheckerRaised ==>
              Evaluate(Recommend, artifact, checks, signature) == [GateFailure(CheckerError, None)]
    ensures signature != Some(ApproveEnforcement) ==>
              Evaluate(Enforce, artifact, checks, signature) == [GateFailure(EnforceRequiresHumanSignature, None)]
  {
  }

  /** The entries of a verdict by type: an unsigned ENFORCE is a violation attempt, any other rejection a failed
      verification, each followed by the rejection; an approved ENFORCE is a human decision, any other
      acceptance a passed verification. */
  lemma VerdictEntries(codec: Codec, table: seq<LedgerEntry>, ts: Text, agent: Option<AgentId>, mandateHash: Hex,
                       consequence: Consequence, artifact: Artifact, checks: GateChecks,
                       signature: Option<HumanDecisionKind>)
    ensures var g := Gate(codec, table, ts, agent, mandateHash, consequence, artifact, checks, signature);
            var n := |g.ledgered|;
            && (g.accepted ==> n == 1 && g.ledgered[0].event == if consequence == Enforce then HumanDecision else VerificationPass)
            && (!g.accepted ==>
                  && n == 2 && g.ledgered[1].event == GateRejection
                  && g.ledgered[0].event
                     == if consequence == Enforce && signature == None then MandateViolationAttempt else VerificationFail)
            && g.consequence == consequence
  {
  }

  // ------------------------------------------------------------------
  // The scope guard
  // ------------------------------------------------------------------

  datatype GuardResult = ScopeGranted(scope: DataScope) | ScopeRefused(code: RefusalCode, entry: LedgerEntry, payload: Payload)

  function Guard(codec: Codec, table: seq<LedgerEntry>, ts: Text, agent: AgentId, m: Mandate, mandateHash: Hex,
                 name: string): GuardResult
  {
    var scope := ResolveScope(name);
    if scope.Some? && scope.value in m.dataScopes then ScopeGranted(scope.value)
    else
      var payload := ScopePayload(name, ScopeNotAllowed, agent);
      ScopeRefused(ScopeNotAllowed,
                   Written(codec, table, ts, Some(agent), mandateHash, MandateViolationAttempt, payload), payload)
  }

  /** guard_scope_request: a grant writes nothing, a refusal writes its own entry. */
  method GuardScopeRequest(ledger: Ledger, codec: Codec, ts: Text, agent: AgentId, m: Mandate, mandateHash: Hex,
                           name: string)
    returns (r: GuardResult)
    requires ledger.Cached() && ledger.hash == codec.hash
    modifies ledger
    ensures ledger.Cached()
    ensures r == Guard(codec, old(ledger.table), ts, agent, m, mandateHash, name)
    ensures ledger.table == old(ledger.table) + (if r.ScopeRefused? then [r.entry] else [])
  {
    var scope := ResolveScope(name);
    if scope.Some? && scope.value in m.dataScopes {
      return ScopeGranted(scope.value);
    }
    var payload := ScopePayload(name, ScopeNotAllowed, agent);
    var entry := Write(ledger, codec, ts, Some(agent), mandateHash, MandateViolationAttempt, payload);
    r := ScopeRefused(ScopeNotAllowed, entry, payload);
  }
}
