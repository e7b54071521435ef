/** What one agent may do, and the check every proposed action passes first
    (governance/mandate.py, governance/scopes.py). */
module Mandates {
  import opened Prelude

  datatype AgentId = Triage | Evidence | Memo | PromptEval

  datatype ToolId = RankTriageQueue | RunParameterizedPivot | ResolvePolicyCitation | RunPromptEval

  datatype DataScope = Channel | Video | Comment | EngagementEvent | AccountMeta | InfraHint

  datatype Consequence = Observe | Assemble | Recommend | Enforce

  datatype RefusalCode =
    | AgentMismatch
    | EnforceIsHumanOnly
    | ToolNotAllowed
    | ToolHandlerNotInBuild
    | ScopeNotAllowed
    | ConsequenceExceedsCeiling

  /** The classes a mandate can name as its output schema. */
  datatype Schema = QueueSchema | PackSchema | MemoSchema | EvalReportSchema

  datatype MandateFields = MandateFields(
    agent: AgentId,
    version: string,
    ceiling: Consequence,
    allowedTools: set<ToolId>,
    dataScopes: set<DataScope>,
    outputSchema: Schema,
    tokenBudget: int,
    maxSteps: int)

  /** A mandate as its constructor lets it exist: never an ENFORCE ceiling, never an empty budget. */
  type Mandate = m: MandateFields | m.ceiling != Enforce && m.tokenBudget > 0 && m.maxSteps > 0
    witness MandateFields(Triage, "1.0.0", Observe, {}, {}, QueueSchema, 1, 1)

  function AgentName(a: AgentId): string {
    match a
    case Triage => "triage"
    case Evidence => "evidence"
    case Memo => "memo"
    case PromptEval => "prompt_eval"
  }

  function ToolName(t: ToolId): string {
    match t
    case RankTriageQueue => "rank_triage_queue"
    case RunParameterizedPivot => "run_parameterized_pivot"
    case ResolvePolicyCitation => "resolve_policy_citation"
    case RunPromptEval => "run_prompt_eval"
  }

  function ScopeName(d: DataScope): string {
    match d
    case Channel => "channel"
    case Video => "video"
    case Comment => "comment"
    case EngagementEvent => "engagement_event"
    case AccountMeta => "account_meta"
    case InfraHint => "infra_hint"
  }

  /** resolve_tool_by_name: lookup by enum value; absence is denial. */
  function ResolveTool(name: string): Option<ToolId> {
    if name == ToolName(RankTriageQueue) then Some(RankTriageQueue)
    else if name == ToolName(RunParameterizedPivot) then Some(RunParameterizedPivot)
    else if name == ToolName(ResolvePolicyCitation) then Some(ResolvePolicyCitation)
    else if name == ToolName(RunPromptEval) then Some(RunPromptEval)
    else None
  }

  /** resolve_scope_by_name: the same, for data scopes. */
  function ResolveScope(name: string): Option<DataScope> {
    if name == ScopeName(Channel) then Some(Channel)
    else if name == ScopeName(Video) then Some(Video)
    else if name == ScopeName(Comment) then Some(Comment)
    else if name == ScopeName(EngagementEvent) then Some(EngagementEvent)
    else if name == ScopeName(AccountMeta) then Some(AccountMeta)
    else if name == ScopeName(InfraHint) then Some(InfraHint)
    else None
  }

  /** A name resolves to a tool exactly when it is that tool's own name. */
  lemma ResolveToolExact(name: string, t: ToolId)
    ensures ResolveTool(name) == Some(t) <==> name == ToolName(t)
  {
    assert |ToolName(RankTriageQueue)| == 17 && |ToolName(RunParameterizedPivot)| == 23;
    assert |ToolName(ResolvePolicyCitation)| == 23 && |ToolName(RunPromptEval)| == 15;
    assert ToolName(RunParameterizedPivot)[1] == 'u' && ToolName(ResolvePolicyCitation)[1] == 'e';
  }

  lemma ResolveScopeExact(name: string, d: DataScope)
    ensures ResolveScope(name) == Some(d) <==> name == ScopeName(d)
  {
    assert ScopeName(Channel)[1] == 'h' && ScopeName(Comment)[1] == 'o';
    assert ScopeName(Channel)[0] == 'c' && ScopeName(Video)[0] == 'v';
    assert ScopeName(EngagementEvent)[0] == 'e' && ScopeName(AccountMeta)[0] == 'a';
    assert ScopeName(InfraHint)[0] == 'i' && ScopeName(Comment)[0] == 'c';
  }

  function Rank(c: Consequence): nat {
    match c
    case Observe => 0
    case Assemble => 1
    case Recommend => 2
    case Enforce => 3
  }

  /** What a ceiling lets through, level by level. No mandate has the last one. */
  predicate Admits(ceiling: Consequence, c: Consequence) {
    match ceiling
    case Observe => c == Observe
    case Assemble => c == Observe || c == Assemble
    case Recommend => c != Enforce
    case Enforce => true
  }

  /** The ranks compare as the levels admit one another. */
  lemma RankOrders(ceiling: Consequence, c: Consequence)
    ensures Rank(c) <= Rank(ceiling) <==> Admits(ceiling, c)
  {
  }

  datatype ProposedAction = ProposedAction(
    agent: AgentId, tool: ToolId, consequence: Consequence, requestedScopes: set<DataScope>)

  datatype Verdict = Allow | Refuse(code: RefusalCode)

  /** validate: the refusal order is part of the behaviour. */
  function Validate(action: ProposedAction, m: Mandate): Verdict {
    if action.consequence == Enforce then Refuse(EnforceIsHumanOnly)
    else if action.agent != m.agent then Refuse(AgentMismatch)
    else if action.tool !in m.allowedTools then Refuse(ToolNotAllowed)
    else if action.requestedScopes - m.dataScopes != {} then Refuse(ScopeNotAllowed)
    else if Rank(action.consequence) > Rank(m.ceiling) then Refuse(ConsequenceExceedsCeiling)
    else Allow
  }

  /** What validate decides: an action passes exactly when it is no ENFORCE action and the mandate is
      its agent's, lists its tool, covers its scopes and admits its consequence. Every refusal names the
      first of these that fails, in that order, so the human-only refusal is never shadowed by another. */
  lemma ValidateMeaning(action: ProposedAction, m: Mandate)
    ensures Validate(action, m) == Allow <==>
              && action.consequence != Enforce && action.agent == m.agent && action.tool in m.allowedTools
              && action.requestedScopes <= m.dataScopes && Admits(m.ceiling, action.consequence)
    ensures Validate(action, m) == Refuse(EnforceIsHumanOnly) <==> action.consequence == Enforce
    ensures Validate(action, m) == Refuse(AgentMismatch) <==> action.consequence != Enforce && action.agent != m.agent
    ensures Validate(action, m) == Refuse(ToolNotAllowed) <==>
              action.consequence != Enforce && action.agent == m.agent && action.tool !in m.allowedTools
    ensures Validate(action, m) == Refuse(ScopeNotAllowed) <==>
              && action.consequence != Enforce && action.agent == m.agent && action.tool in m.allowedTools
              && !(action.requestedScopes <= m.dataScopes)
    ensures Validate(action, m) != Refuse(ToolHandlerNotInBuild)
  {
    var outside := action.requestedScopes - m.dataScopes;
    RankOrders(m.ceiling, action.consequence);
    if action.requestedScopes <= m.dataScopes {
      assert outside == {};
    }
    forall d | d in action.requestedScopes && d !in m.dataScopes ensures d in outside {
    }
  }

  /** The three ceilings a mandate can have, for an action that fits it otherwise: OBSERVE lets through
      OBSERVE alone, ASSEMBLE also ASSEMBLE, and RECOMMEND everything below ENFORCE. */
  lemma CeilingsByName(action: ProposedAction, m: Mandate)
    requires action.agent == m.agent && action.tool in m.allowedTools && action.requestedScopes <= m.dataScopes
    ensures m.ceiling == Observe ==> (Validate(action, m) == Allow <==> action.consequence == Observe)
    ensures m.ceiling == Assemble ==> (Validate(action, m) == Allow <==> action.consequence in {Observe, Assemble})
    ensures m.ceiling == Recommend ==>
              (Validate(action, m) == Allow <==> action.consequence in {Observe, Assemble, Recommend})
    ensures Validate(action, m) != Allow && action.consequence != Enforce ==>
              Validate(action, m) == Refuse(ConsequenceExceedsCeiling)
  {
    ValidateMeaning(action, m);
  }

  /** Widening a mandate never takes an action away. */
  lemma WiderMandateAllows(action: ProposedAction, m: Mandate, wider: Mandate)
    requires m.agent == wider.agent && m.allowedTools <= wider.allowedTools && m.dataScopes <= wider.dataScopes
    requires forall c: Consequence :: Admits(m.ceiling, c) ==> Admits(wider.ceiling, c)
    ensures Validate(action, m) == Allow ==> Validate(action, wider) == Allow
  {
    ValidateMeaning(action, m);
    ValidateMeaning(action, wider);
  }

  /** The closed vocabularies, name by name. */
  lemma KnownNames()
    ensures ResolveTool("rank_triage_queue") == Some(RankTriageQueue)
    ensures ResolveTool("run_parameterized_pivot") == Some(RunParameterizedPivot)
    ensures ResolveTool("resolve_policy_citation") == Some(ResolvePolicyCitation)
    ensures ResolveTool("run_prompt_eval") == Some(RunPromptEval)
    ensures ResolveScope("channel") == Some(Channel) && ResolveScope("video") == Some(Video)
    ensures ResolveScope("comment") == Some(Comment) && ResolveScope("engagement_event") == Some(EngagementEvent)
    ensures ResolveScope("account_meta") == Some(AccountMeta) && ResolveScope("infra_hint") == Some(InfraHint)
    ensures AgentName(Triage) == "triage" && AgentName(Evidence) == "evidence"
    ensures AgentName(Memo) == "memo" && AgentName(PromptEval) == "prompt_eval"
  {
    ResolveToolExact(ToolName(RankTriageQueue), RankTriageQueue);
    ResolveToolExact(ToolName(RunParameterizedPivot), RunParameterizedPivot);
    ResolveToolExact(ToolName(ResolvePolicyCitation), ResolvePolicyCitation);
    ResolveToolExact(ToolName(RunPromptEval), RunPromptEval);
    ResolveScopeExact(ScopeName(Channel), Channel);
    ResolveScopeExact(ScopeName(Video), Video);
    ResolveScopeExact(ScopeName(Comment), Comment);
    ResolveScopeExact(ScopeName(EngagementEvent), EngagementEvent);
    ResolveScopeExact(ScopeName(AccountMeta), AccountMeta);
    ResolveScopeExact(ScopeName(InfraHint), InfraHint);
    hide ResolveTool, ResolveScope;
  }
}
