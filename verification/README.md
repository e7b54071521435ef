# ts-sentry, modelled and proved in Dafny

This project models the parts of ts-sentry whose behaviour is hardest to see by reading one function,
and proves what they promise for all inputs, all answers from outside and all runs.

- **The governed session.** A hash-chained ledger with one write capability and several writers; a
  session state machine with per-agent budgets; the dispatch pipeline with scope guard, mandate check,
  handler and consequence gate; and the evidence and memo turns that drive it, with the firewall and
  the composed request in front of every model call. The model's, the analyst's, the checkers' and the
  handlers' answers, the evidence packs and the instructions are arbitrary parameters. `Ledger`,
  `BudgetTracker` and `Session` are classes whose methods are each tied to a function on values, and
  the theorems about runs are about those functions.
- **The stratified VVR estimator.** The water-filling allocator with floors and caps, largest-remainder
  rounding, the draw, the panel of reviewers, the estimate, its variance and its interval. Floats are
  reals, Neyman keys are any non-negative reals, random draws are any draws of the right shape. Every
  sample an allocation can draw is enumerated, and the estimate and its reported variance are averaged
  over all of them.
- **The input firewall.** Two escaping passes, the fence and its nonce, the parser that reads a block
  back, and the merging and redaction of detected spans. Signals are any non-empty spans inside the text.
- **Smaller algorithms.** Paired evaluation metrics, the sliding-window burst count, the pivot work
  list, and anchor derivation.

One module per source file, roughly; `Prelude`, `Sorting` and `Sums` hold shared vocabulary, `Records`
what every operation of a session writes, and `Drawing` the sums over all samples. SHA-256 is
an arbitrary function from strings to hex digests (`Canonical.Hasher`). No theorem assumes it to be
injective: those that need collision-freedom name the two chains or encodings on which it must not
collide. `join_fields` is modelled concretely and its injectivity is proved.

## Where the code and its documentation disagree

The model follows the code.

- `_allocate` says the requested total is always the total delivered
  (`src/ts_sentry/measurement/vvr.py:189-191`). It is not: `AllocationWitnesses.ShortfallExists` and
  `AllocationWitnesses.OvershootExists` give inputs that deliver 103 of 105 and 14 of 13.
  `Allocations.DeliveredIff` states exactly when the total is delivered, and
  `Allocations.OneSidedDelivers` a condition to check before the call: sharing the total by key alone
  breaks caps only, or minimums only, or nothing. Proportional allocation always delivers.
- Anchors are said to be unique within a document (`src/ts_sentry/data/policy_corpus.py:172-175`).
  Headings "Examples", "Examples", "Examples 2" share one (`Anchors.AnchorsCanCollide`);
  `Anchors.AnchorsUniqueIff` gives the exact condition.
- The second escaping pass lists eight characters "that JSON does not escape"
  (`src/ts_sentry/orchestrator/firewall.py:311-336`). json.dumps has already escaped the five control
  characters among them; only NEL, LS and PS ever reach the pass (`Json.EncodedCharIs`).
- `require_sha256_hex` rejects what is not "a lowercase 64-char hex digest"
  (`src/ts_sentry/governance/canonical.py:50-65`). Its pattern ends in `$`, so it also accepts a digest
  followed by one newline (`Canonical.NewlineSlipsThrough`); `Canonical.AcceptedIff` says that it
  accepts exactly those two. `Canonical.Hex` includes both.

## What does not hold everywhere

Properties a caller may expect that the code does not promise, with the exact condition for each.

- A turn that starts in OPEN ends in OPEN. It does exactly when nothing on its way raises, and the session
  is otherwise left in its turn (`EvidenceTurns.TurnReturnsIff`, `MemoTurns.MemoTurnReturnsIff`). Each
  iteration puts the evidence pack through the firewall, which raises when two records have one id. A
  pack rejects repeated ids among its entities and among its relations only
  (`src/ts_sentry/agents/evidence/pack.py:347-348`), so in the evidence turn, which presents both, this
  happens exactly for a relation with an entity's id (`Preflights.SharedIds`, with
  `Preflights.ClashingPackIsRefused` and `EvidenceTurns.ClashingAnswerAborts` as witnesses). The memo turn presents entities alone and never
  meets this. Composing the request raises when the instruction holds a fence prefix or the nonce. A memo
  instruction can: from the second attempt on it quotes the last draft's failures, and those quote the
  model (`src/ts_sentry/orchestrator/draft_check.py:141-149`, `MemoTurns.FencedInstructionAborts`).
  Digesting raises when the instruction, or a parameter of an accepted proposal, holds U+001F. No illegal
  transition is ever attempted, and no tool call is ever unapproved, whether the turn returns or raises.
- A session is opened once. `open` takes the same edge to OPEN as `end_turn` and `resume`
  (`src/ts_sentry/orchestrator/core.py:133-156`, `src/ts_sentry/orchestrator/core.py:753-760`), so a
  session can be opened again in the middle of a turn (`Lifecycles.OpensTwice`) or enter OPEN with
  nothing recorded (`Lifecycles.OpensUnrecorded`). `Lifecycles.OpenedOnceIff` counts the openings of
  every run and gives the conditions for exactly one and for none.
- The reported variance measures the estimate's error. Averaged over all samples it never exceeds the
  mean squared error, and equals it exactly when no stratum with views of both kinds has a single one
  drawn (`Unbiasedness.VarianceIsHonestIff`).

## Model

| member | source | states |
|---|---|---|
| Canonical.JoinFieldsMeaning | src/ts_sentry/governance/canonical.py:68-81 | joining succeeds exactly when no field carries U+001F; a refusal names the first field that does |
| Canonical.JoinDecodable | src/ts_sentry/governance/canonical.py:68-81 | two separator-free field lists have the same encoding exactly when they are equal, or are the empty list and the list of one empty field |
| Canonical.AcceptedIff | src/ts_sentry/governance/canonical.py:52-65 | accepted exactly: sixty-four lower-case hex digits, and those followed by one newline |
| Canonical.NewlineSlipsThrough | src/ts_sentry/governance/canonical.py:52-65 | an accepted string is a digest exactly when it does not end in a newline, and every digest with a newline behind it is accepted |
| Mandates.ResolveToolExact | src/ts_sentry/orchestrator/toolspec.py:208-218 | a name resolves to a tool exactly when it is that tool's own name |
| Mandates.ResolveScopeExact | src/ts_sentry/governance/scopes.py:41-58 | a name resolves to a scope exactly when it is that scope's own name |
| Mandates.ValidateMeaning | src/ts_sentry/governance/mandate.py:311-362 | an action is allowed exactly when it is not ENFORCE and agent, tool, scopes and ceiling all fit; each refusal names the first of these that fails, in the documented order |
| Mandates.CeilingsByName | src/ts_sentry/governance/mandate.py:290-356 | of actions that fit otherwise, OBSERVE admits only OBSERVE, ASSEMBLE also ASSEMBLE, RECOMMEND all but ENFORCE, and what is not admitted exceeds the ceiling |
| Mandates.KnownNames | src/ts_sentry/governance/mandate.py:64-85 | the names that resolve, one by one |
| Mandates.WiderMandateAllows | src/ts_sentry/governance/mandate.py:311-362 | widening a mandate never turns an allowed action into a refused one |
| Ledgers.PreimageInjective | src/ts_sentry/governance/ledger.py:191-211 | entries hashed over the same string agree on every hashed field |
| Ledgers.PreimageIs | src/ts_sentry/governance/ledger.py:191-211 | the hashed fields in their order, one separator between each two |
| Ledgers.EventNames | src/ts_sentry/governance/ledger.py:113-140 | the event types as they are hashed |
| Ledgers.VerifyChain | src/ts_sentry/governance/ledger.py:366-422 | the loop accepts exactly the intact chains, and otherwise names the first broken position and its reason |
| Ledgers.SharedHashSharesPast | src/ts_sentry/governance/ledger.py:366-422 | one entry hash shared by two intact chains that do not collide pins everything up to it |
| Ledgers.HeadDeterminesHistory | src/ts_sentry/governance/ledger.py:360-422 | two intact chains that do not collide have the same head exactly when they are equal, entry for entry |
| Ledgers.RewriteIsCaught | src/ts_sentry/governance/ledger.py:366-422 | replacing one entry of an intact chain by any other is reported at it or at the next link, or, for the last entry, changes the head |
| Ledgers.FieldTamperLocalised | src/ts_sentry/governance/ledger.py:366-422 | changing any one field of one entry is reported at exactly that entry with the reason its field calls for |
| Ledgers.RearrangementLocalised | src/ts_sentry/governance/ledger.py:366-422 | any deletion, reordering or repetition is reported at the first position that differs; only prefixes verify |
| Ledgers.DeletionLocalised | src/ts_sentry/governance/ledger.py:366-422 | deleting an interior block is reported where it began |
| Ledgers.TruncationNeedsTheHead | src/ts_sentry/governance/ledger.py:360-422 | every proper prefix of an intact chain verifies but has another head |
| Ledgers.TailIsHead | src/ts_sentry/governance/ledger.py:491-521 | on an intact chain the stored tail row tells the head |
| Ledgers.AppendKeepsIntact | src/ts_sentry/governance/ledger.py:523-579 | appending the next entry keeps a chain intact |
| Ledgers.Ledger.constructor | src/ts_sentry/governance/ledger.py:491-502 | opening a store caches its tail row; over an intact store the cache is the head |
| Ledgers.Ledger.Append | src/ts_sentry/governance/ledger.py:523-579 | writes exactly one entry, linked to the tail, and keeps the cache and an intact chain |
| Ledgers.Ledger.Verify | src/ts_sentry/governance/ledger.py:581-586 | reports on the stored table what verify_chain reports |
| Gates.RunGate | src/ts_sentry/governance/gates.py:232-290 | appends exactly the entries of its verdict, in order, and returns them |
| Gates.GateBodiesMatch | src/ts_sentry/governance/gates.py:271-290 | every entry a gate writes digests to the body handed back beside it |
| Gates.GateVerdictIsWritten | src/ts_sentry/governance/gates.py:195-290 | a gate writes at least one entry, accepts exactly when there are no failures and the last entry is no rejection, and writes a human decision only for a signed ENFORCE |
| Gates.GateAccepts | src/ts_sentry/governance/gates.py:195-230 | what each consequence takes: nothing, a clean answer of its own checker, or an approving signature |
| Gates.GateReports | src/ts_sentry/governance/gates.py:195-230 | a gate reports what its checker found, or that it raised, or the missing signature |
| Gates.VerdictEntries | src/ts_sentry/governance/gates.py:232-290 | the one entry of an acceptance and the two of a rejection, by consequence and signature |
| Gates.GuardScopeRequest | src/ts_sentry/governance/gates.py:323-394 | a granted scope writes nothing, a refused one writes its own entry |
| Sessions.MandateSetHashBinds | src/ts_sentry/orchestrator/core.py:336-348 | equal set digests mean the same agents with the same mandate digests, unless the hash collides on the two encodings |
| Sessions.BudgetTracker.constructor | src/ts_sentry/orchestrator/core.py:263-275 | a fresh tracker holds the mandate's ceilings and has spent nothing |
| Sessions.BudgetTracker.Check | src/ts_sentry/orchestrator/core.py:277-303 | steps before tokens, a negative estimate is an error, none when the work may proceed |
| Sessions.BudgetTracker.RecordStep | src/ts_sentry/orchestrator/core.py:305-306 | books one step and nothing else |
| Sessions.BudgetTracker.RecordTokens | src/ts_sentry/orchestrator/core.py:308-311 | books the tokens and nothing else; a negative count is an error and books nothing |
| Sessions.Session.constructor | src/ts_sentry/orchestrator/core.py:431-477 | a new session has recorded nothing and spent nothing, whatever its ledger holds |
| Sessions.Session.AppendEvent | src/ts_sentry/orchestrator/core.py:597-623 | one clock reading, one entry behind the chain, one recorded event with its body; whose digest and stamp it carries is Records.NoteWrites |
| Sessions.Session.AttachEvent | src/ts_sentry/orchestrator/core.py:625-646 | files an entry written elsewhere exactly when the body digests to it, else changes nothing |
| Sessions.Session.Transition | src/ts_sentry/orchestrator/core.py:588-595 | moves along an existing edge of the state machine or changes nothing |
| Sessions.Session.OpenSession | src/ts_sentry/orchestrator/core.py:648-716 | where the state machine has an edge to OPEN, takes it and records the opening bound to the fleet digest; else changes nothing |
| Sessions.Session.StartTurn | src/ts_sentry/orchestrator/core.py:718-751 | unknown agent, then budget, then edge; a started turn books one step |
| Sessions.Session.Counts | src/ts_sentry/orchestrator/core.py:572-584 | the event histogram, from one pass over the recorded events |
| Sessions.Session.CloseSession | src/ts_sentry/orchestrator/core.py:762-786 | records the close, counting what came before it, and returns the head of the finished chain |
| Adapters.StopsAt | src/ts_sentry/orchestrator/adapter.py:323-350 | the retry loop stops at the first answer that is not a transient failure, or at the last attempt |
| Adapters.CallWithRetry | src/ts_sentry/orchestrator/adapter.py:323-350 | as many calls as that takes, one sleep between each two, and the last answer is the outcome |
| Adapters.CallModel | src/ts_sentry/orchestrator/adapter.py:552-633 | budget check, then the request's digest, which can raise, then the prompt on the chain, then the call, then the actuals booked |
| Dispatching.AskScopes | src/ts_sentry/orchestrator/dispatch.py:229-254 | the guard is asked name by name up to the first refusal, and what it wrote is filed |
| Dispatching.RunGated | src/ts_sentry/orchestrator/dispatch.py:366-391 | the gate writes behind the session's back and every entry it wrote is then filed |
| Dispatching.DispatchProposal | src/ts_sentry/orchestrator/dispatch.py:178-416 | the pipeline over a session object; an unknown agent is an error that touches nothing |
| DispatchProofs.ScopesAllOrNothing | src/ts_sentry/orchestrator/dispatch.py:229-254 | every name allowed: exactly the named scopes are granted and nothing is written; otherwise nothing is granted and one violation attempt is written |
| DispatchProofs.ValidateAfterGuard | src/ts_sentry/orchestrator/dispatch.py:255-297 | after the guard, validate can answer neither AGENT_MISMATCH nor SCOPE_NOT_ALLOWED |
| DispatchProofs.DispatchTrace | src/ts_sentry/orchestrator/dispatch.py:140-416 | a dispatch reports exactly the entries it wrote, refuses exactly as names, table and mandate call for, and otherwise runs the tool with exactly the requested scopes |
| DispatchProofs.DispatchGrammar | src/ts_sentry/orchestrator/dispatch.py:140-416 | EXECUTED exactly for TOOL_CALLED, TOOL_RESULT, VERIFICATION_PASS; how each refusal and failure trace looks; a refused scope name leaves exactly two violation attempts; never a human decision |
| DispatchProofs.ExecutedIff | src/ts_sentry/orchestrator/dispatch.py:318-416 | an artifact is handed out exactly for a permitted proposal whose handler returns one of the mandate's schema that passes the gate, and it is the handler's own |
| DispatchProofs.OutcomeNamesItsTool | src/ts_sentry/orchestrator/dispatch.py:178-416 | an outcome names the tool that was proposed, however it ends |
| DispatchProofs.CompleteMediation | src/ts_sentry/orchestrator/dispatch.py:205-316 | a tool is called exactly when the proposal is permitted; otherwise the handler's answer makes no difference at all |
| Runs.StepKeepsSound | src/ts_sentry/orchestrator/core.py:597-646 | every step keeps the session's account of the chain, the chain's integrity and the set of budgets |
| Records.NoteWrites | src/ts_sentry/orchestrator/core.py:597-623 | one record for the writer, bound to its mandate and stamped by the reading taken; the next reading is the next one |
| Records.DispatchWrites | src/ts_sentry/orchestrator/dispatch.py:178-416 | every record of a dispatch, in order, with its body; all for the proposing agent and bound to its own mandate, those of the guard and the gate included |
| Records.CallWrites | src/ts_sentry/orchestrator/adapter.py:574-633 | the prompt with its estimate, and the adapter's failure if it failed, for the calling agent |
| Records.StepWrites | src/ts_sentry/orchestrator/core.py:597-786 | what each public operation records and for whom |
| Records.EveryEntryIsBound | src/ts_sentry/orchestrator/core.py:605-616 | over any run, every entry added without an agent carries the fleet's digest, every entry added for an agent that agent's own mandate's, and stamps follow the clock's readings in order |
| Runs.SessionAndChainAgree | src/ts_sentry/orchestrator/core.py:597-646 | over any run the recorded events are exactly the entries written since the session was created, in order, once each, each digesting its body, and an intact chain stays intact |
| Runs.CountsAreMultiplicities | src/ts_sentry/orchestrator/core.py:572-584 | event_counts is the multiset of recorded event types |
| Runs.CloseSealsTheChain | src/ts_sentry/orchestrator/core.py:762-786 | after any run, close adds one entry that counts all before it and returns the head of the finished, intact chain |
| Runs.BudgetsHold | src/ts_sentry/orchestrator/core.py:277-311 | over any run steps stay within their ceiling and tokens pass theirs by at most the last prompt's excess over its own estimate |
| Runs.PromptNeedsBudget | src/ts_sentry/orchestrator/adapter.py:574-627 | a prompt is sent exactly when something remains, the estimate fits and the request can be digested; otherwise nothing changes |
| Lifecycles.StepFollowsEdges | src/ts_sentry/orchestrator/core.py:133-156 | every step leaves the state, takes one edge of the machine, or closes along two; a closed session stays closed |
| Lifecycles.TurnStartsIff | src/ts_sentry/orchestrator/core.py:718-751 | a turn starts exactly for a known agent with a step left, tokens left and a fitting estimate, in OPEN, and books that one step and nothing else |
| Lifecycles.TurnAnswers | src/ts_sentry/orchestrator/core.py:718-751 | what a caller is told otherwise: unknown agent, negative estimate, step budget, token budget, state, in this order |
| Lifecycles.ClosedIsFinal | src/ts_sentry/orchestrator/core.py:133-156 | over any run from CLOSED the session stays closed and no turn starts |
| Lifecycles.StepWritesMarkers | src/ts_sentry/orchestrator/core.py:648-786 | only opening writes SESSION_OPEN and only closing writes SESSION_CLOSE |
| Lifecycles.ClosedExactlyOnce | src/ts_sentry/orchestrator/core.py:762-786 | over any run there is one SESSION_CLOSE if the session is closed and none otherwise, and it never rests in CLOSING |
| Lifecycles.OpeningStaysFirst | src/ts_sentry/orchestrator/core.py:648-716 | a session opened first keeps a SESSION_OPEN bound to its fleet's digest as its first entry |
| Lifecycles.OpenedOnceIff | src/ts_sentry/orchestrator/core.py:648-760 | over any run: one opening if `open` was the way out of CREATED and one more for each `open` during a turn; hence when there is exactly one, and when none |
| Lifecycles.OpensUnrecorded | src/ts_sentry/orchestrator/core.py:753-760 | a created session told to end its turn is open with nothing recorded |
| Lifecycles.OpensTwice | src/ts_sentry/orchestrator/core.py:648-716 | opening, starting a turn and opening again records two openings |
| Runs.Drive | src/ts_sentry/orchestrator/core.py:403-786 | a whole run on session objects is the run on values |
| Preflights.RunPreflight | src/ts_sentry/orchestrator/evidence_turn.py:387-397 | wrapping the records and composing the request, with the exception that comes first |
| Preflights.PresentedAre | src/ts_sentry/orchestrator/evidence_turn.py:315-341 | each entity under its own id, kind and line, then each relation |
| Preflights.PreflightIff | src/ts_sentry/orchestrator/firewall.py:358-397 | neither step raises exactly when the ids are distinct, some candidate token is not in the body, and the instruction holds neither the nonce nor a fence prefix |
| Preflights.SharedIds | src/ts_sentry/agents/evidence/pack.py:347-348 | a constructed pack's entities always have distinct ids; with its relations, exactly when no relation has an entity's id |
| Artifacts.CitableRecords | src/ts_sentry/agents/evidence/pack.py:426-445 | what can be cited: entities, relations, timeline events and provenance records |
| Artifacts.SchemasByName | src/ts_sentry/orchestrator/dispatch.py:349-364 | each output schema is met by its own artifacts and no others |
| Preflights.ClashingPackIsRefused | src/ts_sentry/orchestrator/evidence_turn.py:315-341 | a pack its constructor accepts and the firewall refuses, whatever the hash and the instruction |
| EvidenceTurns.HopContinues | src/ts_sentry/orchestrator/evidence_turn.py:372-542 | one loop iteration from OPEN calls a tool only directly after an approval and attempts no illegal edge; it returns to OPEN with a report of exactly what it wrote precisely when nothing on its way raises |
| EvidenceTurns.EvidenceTurnIsSafe | src/ts_sentry/orchestrator/evidence_turn.py:344-557 | whatever answers, packs and exceptions: every TOOL_CALLED comes directly after an approving HUMAN_DECISION, the account of the chain holds and no illegal transition is attempted; a turn that returns ends in OPEN with exactly its entries and one record per iteration |
| EvidenceTurns.TurnReturnsIff | src/ts_sentry/orchestrator/evidence_turn.py:344-557 | a turn returns, and so ends in OPEN, exactly when in each iteration it comes to the pack can be wrapped, the instruction composed and digested, and an accepted proposal hashed and reviewed |
| EvidenceTurns.TurnNeedsMandateAndOpen | src/ts_sentry/orchestrator/evidence_turn.py:344-385 | without a mandate an unknown agent is raised, outside OPEN an illegal transition, and nothing is written |
| EvidenceTurns.HopOutcomeIs | src/ts_sentry/orchestrator/evidence_turn.py:372-542 | the exact cause of each of the six outcomes, of the reason to stop, and of the pack a hop hands on |
| EvidenceTurns.HopWrites | src/ts_sentry/orchestrator/evidence_turn.py:387-520 | everything a hop records, in order: prompt, verdict, decision, and the dispatch's records |
| EvidenceTurns.TurnPackIsLatest | src/ts_sentry/orchestrator/evidence_turn.py:519-557 | the pack a turn returns is grown by executed pivots only, and by all of them |
| EvidenceTurns.AsksForWhatIsNeeded | src/ts_sentry/orchestrator/toolspec.py:221-229 | the scope names a turn asks for stand for exactly the scopes its tool requires |
| EvidenceTurns.PivotPermittedIff | src/ts_sentry/orchestrator/evidence_turn.py:496-506 | a turn's pivot is permitted exactly when the mandate lists the tool, covers what it requires and admits its consequence, and there is a handler |
| EvidenceTurns.ClashingIdsAbort | src/ts_sentry/orchestrator/evidence_turn.py:387-397 | an iteration that begins with a relation named like an entity raises there, with nothing written |
| EvidenceTurns.ApprovedPivotGrows | src/ts_sentry/orchestrator/evidence_turn.py:488-542 | an accepted, approved and permitted proposal whose handler's pack passes the gate makes that pack the next iteration's |
| EvidenceTurns.ClashingAnswerAborts | src/ts_sentry/orchestrator/evidence_turn.py:372-542 | so a pack that clashes can come from a handler: its own iteration returns, the next one raises |
| EvidenceTurns.RunEvidenceTurn | src/ts_sentry/orchestrator/evidence_turn.py:344-557 | the loop over a session object computes that turn |
| MemoGates.RewrappingKeepsWords | src/ts_sentry/orchestrator/citation_resolver.py:105-116 | splitting is undone by any blank rewrapping |
| MemoGates.BlanksByCode | src/ts_sentry/orchestrator/citation_resolver.py:105-116 | the characters that separate words, by code point |
| MemoGates.QuotationMeaning | src/ts_sentry/orchestrator/citation_resolver.py:119-139 | an excerpt is a quotation exactly when its words stand consecutively among the clause's |
| MemoGates.ResolvesMeaning | src/ts_sentry/orchestrator/citation_resolver.py:142-229 | a citation that resolves quotes a clause of the corpus within the length limits, and over an unambiguous corpus every such citation resolves |
| MemoGates.CitationReasons | src/ts_sentry/orchestrator/citation_resolver.py:142-229 | the cause of each way a citation can fail, with the bounds of four and fifteen words |
| MemoGates.VerifyClaims | src/ts_sentry/governance/verifier.py:85-140 | one verdict per claim, in order; the report passes exactly when every claim cites something and only what resolves |
| MemoGates.ClaimReasons | src/ts_sentry/governance/verifier.py:85-140 | why a claim fails, and exactly which of its ids do not resolve |
| MemoGates.MemoCheckMeaning | src/ts_sentry/orchestrator/memo_gate.py:229-264 | the gate accepts a memo exactly when bindings, claims and citations all hold |
| MemoGates.WholeMemoRefused | src/ts_sentry/orchestrator/memo_gate.py:75-120 | a signed memo and each mismatched binding are schema failures, and no sentence is blamed |
| MemoGates.CheckerAccepts | src/ts_sentry/orchestrator/memo_gate.py:229-274 | the checker lets through supported memos and nothing else |
| MemoGates.EveryDefectIsNamed | src/ts_sentry/orchestrator/memo_gate.py:75-264 | with sound bindings, exactly the failing sentences are reported |
| MemoTurns.ExecutedMemoIsSupported | src/ts_sentry/orchestrator/memo_turn.py:280-410 | only a supported memo comes out of a dispatch as executed |
| MemoTurns.AttemptOutcomeIs | src/ts_sentry/orchestrator/memo_turn.py:280-401 | the exact cause of each of the five outcomes, of the reason to stop, and of the memo an attempt leaves |
| MemoTurns.GoodDraftIsVerified | src/ts_sentry/orchestrator/memo_turn.py:345-379 | an attempt whose submission delivers a supported memo is verified, and the turn returns there with exactly that memo |
| MemoTurns.RefusedDraftIsKept | src/ts_sentry/orchestrator/memo_turn.py:381-401 | a draft the gate refuses is the turn's memo from then on, and the loop goes on |
| MemoTurns.TurnMemoIsLatest | src/ts_sentry/orchestrator/memo_turn.py:370-411 | the memo a turn returns is the last one verified or refused by the gate |
| MemoTurns.AttemptWrites | src/ts_sentry/orchestrator/memo_turn.py:289-368 | everything an attempt records, in order: prompt, proposed output, and the dispatch's records |
| MemoTurns.CitationPermittedIff | src/ts_sentry/orchestrator/memo_turn.py:348-363 | a turn's submission is permitted exactly when the mandate lists the tool, covers what it requires and admits its consequence, and there is a handler |
| MemoTurns.VerifiedMemoIsSound | src/ts_sentry/orchestrator/memo_turn.py:248-410 | whatever is drafted over any number of attempts, a verified memo is a draft bound to this pack and corpus whose facts cite carried ids and whose policy grounds quote their clauses; no human decision is taken, no illegal transition attempted, and a turn that returns ends in OPEN with exactly its entries |
| MemoTurns.MemoTurnReturnsIff | src/ts_sentry/orchestrator/memo_turn.py:280-320 | a memo turn returns, and so ends in OPEN, exactly when in each attempt it comes to the entities can be wrapped and the instruction composed and digested |
| MemoTurns.TurnNeedsMandateAndOpen | src/ts_sentry/orchestrator/memo_turn.py:248-287 | without a mandate an unknown agent is raised, outside OPEN an illegal transition, and nothing is written |
| MemoTurns.FencedInstructionAborts | src/ts_sentry/orchestrator/memo_turn.py:289-309 | a fence prefix in the instruction raises out of the attempt before the model is asked |
| MemoTurns.RunMemoTurn | src/ts_sentry/orchestrator/memo_turn.py:248-410 | the loop over a session object computes that turn |
| WaterFilling.TargetsUseTheRest | src/ts_sentry/measurement/vvr.py:221-225 | the free strata's targets use up exactly what the pinned ones left |
| WaterFilling.SharesAddUp | src/ts_sentry/measurement/vvr.py:217-246 | while something is free, pins and targets together add up to the total |
| WaterFilling.FillSettles | src/ts_sentry/measurement/vvr.py:220-243 | the loop keeps every pin and ends with every free target within its bounds |
| WaterFilling.RoundsAreMade | src/ts_sentry/measurement/vvr.py:220-243 | the rounds counted are the loop's: something is free before each, each but the last pins something, and then the filling is done |
| WaterFilling.RoundsBounded | src/ts_sentry/measurement/vvr.py:220-243 | at most one round per non-empty stratum |
| WaterFilling.SharesWithinBounds | src/ts_sentry/measurement/vvr.py:226-246 | every non-empty stratum's share lies between its minimum and its size, every empty one's is zero |
| WaterLevels.OneSidedFillLeavesFree | src/ts_sentry/measurement/vvr.py:220-243 | a run whose pins are all on one side ends with a stratum unpinned |
| WaterLevels.LevelMoves | src/ts_sentry/measurement/vvr.py:220-243 | pinning at minimums lowers what is left per unit of key, pinning at caps raises it |
| WaterLevels.OneSidedIsWaterFilling | src/ts_sentry/measurement/vvr.py:177-246 | with pins on one side the shares are one level times the keys, cut off at each stratum's bounds, and add up to the total |
| WaterLevels.ProportionalPins | src/ts_sentry/measurement/vvr.py:257-275 | proportional keys only ever pin at minimums and leave something free |
| WaterLevels.WithoutMinimumPins | src/ts_sentry/measurement/vvr.py:220-243 | without a minimum only caps are pinned, whatever the keys |
| WaterRuns.FirstRoundLeavesFree | src/ts_sentry/measurement/vvr.py:220-243 | if the first round caps nobody, or floors nobody, something is free at the end |
| Rounding.LargestRemainder | src/ts_sentry/measurement/vvr.py:147-174 | the loop that raises floors along the ranking computes the specified rounding |
| Rounding.RoundedTotal | src/ts_sentry/measurement/vvr.py:147-174 | rounding delivers the floors plus as much of the shortfall as there is room for |
| Rounding.RoundedIsExactIff | src/ts_sentry/measurement/vvr.py:147-174 | "summing exactly to total" holds exactly when the total lies between the floors and the floors plus their room |
| Rounding.RoundedSteps | src/ts_sentry/measurement/vvr.py:147-174 | every count is its floor or one more and never passes its cap |
| Rounding.RemaindersDecide | src/ts_sentry/measurement/vvr.py:162-173 | a stratum with room is passed over only for strata with a larger remainder, or an equal one and an earlier band |
| Rounding.AddingUpIsExact | src/ts_sentry/measurement/vvr.py:147-174 | values under their caps that add up to the total are rounded to exactly that total |
| Rounding.AddingUpKeepsQuota | src/ts_sentry/measurement/vvr.py:147-174 | and then no count is a whole unit away from its value |
| Allocations.Allocate | src/ts_sentry/measurement/vvr.py:177-254 | the allocator's loop computes the specified allocation, with its three refusals, in at most one iteration per non-empty stratum |
| Allocations.AllocationKeepsBounds | src/ts_sentry/measurement/vvr.py:177-254 | every allocation gives a non-empty stratum at least its minimum or all it has and at most its size, and an empty one nothing |
| Allocations.FreeMeansDelivered | src/ts_sentry/measurement/vvr.py:241-254 | if something is free when the loop stops, the total is delivered and each count is within one of its share |
| Allocations.DeliveredIff | src/ts_sentry/measurement/vvr.py:177-254 | the exact condition, on where the loop stopped, for the requested total to be delivered |
| Allocations.UndeliveredMeansTwoSided | src/ts_sentry/measurement/vvr.py:227-243 | an undelivered total means everything was pinned, some strata at each bound |
| Allocations.OneSidedDelivers | src/ts_sentry/measurement/vvr.py:177-254 | if the unconstrained targets break caps only, or minimums only, the total is delivered |
| Allocations.NoMinimumDelivers | src/ts_sentry/measurement/vvr.py:177-254 | without a minimum the total is delivered whatever the keys |
| Allocations.ProportionalDelivers | src/ts_sentry/measurement/vvr.py:257-275 | proportional allocation always delivers the total, each stratum within one view of one sampling rate clamped to its bounds |
| Allocations.CensusIsEverything | src/ts_sentry/measurement/vvr.py:257-275 | asked for the whole frame, proportional allocation takes every stratum whole |
| AllocationWitnesses.ShortfallExists | src/ts_sentry/measurement/vvr.py:189-241 | an input of which 103 of 105 requested views are delivered |
| AllocationWitnesses.OvershootExists | src/ts_sentry/measurement/vvr.py:189-241 | an input of which 14 of 13 requested views are delivered |
| Sampling.StratumSizes | src/ts_sentry/measurement/frame.py:448-458 | the counting loop reports every band's number of views |
| Sampling.IndicesByStratum | src/ts_sentry/measurement/frame.py:460-469 | the grouping loop reports every band's positions in frame order |
| Sampling.PositionsAre | src/ts_sentry/measurement/frame.py:460-469 | those are exactly the positions of the band, each once, ascending |
| Sampling.SizesAddUp | src/ts_sentry/measurement/frame.py:448-458 | the strata partition the frame |
| Sampling.DrawStratifiedSample | src/ts_sentry/measurement/vvr.py:312-339 | nothing for a count of zero or less, a refusal for the first band asked for more than it holds, otherwise the draw |
| Sampling.FullDrawIsAll | src/ts_sentry/measurement/vvr.py:330-338 | drawing as many as there are without replacement draws all of them |
| Sampling.ReviewPanel | src/ts_sentry/measurement/raters.py:173-209 | thresholds filled rater by rater and a strict majority per view compute the specified calls |
| Sampling.CalledIff | src/ts_sentry/measurement/raters.py:176-209 | a view is called exactly when the raters whose draw finds it violative outnumber the others; a tie leaves it up |
| Sampling.OneSidedPanels | src/ts_sentry/measurement/raters.py:176-209 | with full specificity no clean view is called, with full sensitivity every violative one is |
| Sampling.BetterPanelsStayRight | src/ts_sentry/measurement/raters.py:176-209 | a panel nowhere worse gets every view right that the other one gets right on the same draws |
| Sampling.PerfectReviewIsTruth | src/ts_sentry/measurement/raters.py:173-225 | a perfect panel of any size returns the truth whatever it drew |
| Estimator.StratifiedVariance | src/ts_sentry/measurement/vvr.py:361-373 | the loop sums the variance terms of strata with two sampled views; an empty population is refused |
| Estimator.StandardError | src/ts_sentry/measurement/vvr.py:342-374 | and the standard error is that sum's root |
| Estimator.SamplingIsSafe | src/ts_sentry/measurement/vvr.py:312-649 | with a minimum of at least one, any successful allocation is drawn and estimated: no stratum is overdrawn or starved |
| Estimator.CensusIsExact | src/ts_sentry/measurement/vvr.py:598-680 | a census read by perfect reviewers gives the true rate and no variance, for every draw |
| Estimator.FullMeasurementIsExact | src/ts_sentry/measurement/vvr.py:783-840 | with no pilot and a sample as large as the frame nothing refuses, and the estimate is that |
| Estimator.ZeroWidthIsEarned | src/ts_sentry/measurement/vvr.py:398-437 | the variance is never negative, and zero variance with two views per stratum and no degenerate stratum means the sample was a census |
| Estimator.PointIsAShare | src/ts_sentry/measurement/vvr.py:641-643 | the point estimate lies between zero and one |
| Estimator.IntervalHolds | src/ts_sentry/measurement/vvr.py:551-566 | the clipped interval consists of shares and holds the estimate; it has no width exactly when the variance is zero, and then, with two views per stratum and no degenerate one, the sample was a census |
| Estimator.UnclippedWidth | src/ts_sentry/measurement/vvr.py:551-566 | an interval that needed no clipping is centred on the estimate and 2 Z standard errors wide |
| Estimator.ChecksAreExact | src/ts_sentry/measurement/vvr.py:646-664 | exactly when every stratum counts as having two, and exactly which strata count as degenerate |
| Drawing.DrawsAreAll | src/ts_sentry/measurement/vvr.py:330-338 | the enumeration of a stratum's draws lists exactly what a draw without replacement may return |
| Drawing.DrawsFind | src/ts_sentry/measurement/vvr.py:330-338 | over all draws of n from N views, whichever of them are violative, the violative ones found add up to n times those there are, times the draws of n - 1 from N - 1: no view is favoured |
| Drawing.DrawsFindPairs | src/ts_sentry/measurement/vvr.py:330-338 | and the pairs of violative views found add up to n (n - 1) times the pairs there are, times the draws of n - 2 from N - 2: no pair is favoured |
| Unbiasedness.SamplesAreAll | src/ts_sentry/measurement/vvr.py:312-339 | the samples averaged over are exactly the generator's possible answers to an allocation, each once |
| Unbiasedness.SampleOutcome | src/ts_sentry/measurement/vvr.py:598-680 | a perfect panel never leads to a refusal on any of them, and estimate and variance are sums over strata |
| Unbiasedness.EstimateIsUnbiased | src/ts_sentry/measurement/vvr.py:598-680 | for every allocation that leaves no stratum out, the estimate averaged over all samples is exactly the true rate |
| Unbiasedness.AllocatedIsUnbiased | src/ts_sentry/measurement/vvr.py:46-50 | in particular for what the allocator grants with a minimum of one, whatever keys the pilot gave it |
| Unbiasedness.StratumSpread | src/ts_sentry/measurement/vvr.py:348-357 | over one stratum's draws the squared error averages to W^2 (1 - n/N) P (1 - P) N / ((N - 1) n) |
| Unbiasedness.StratumReports | src/ts_sentry/measurement/vvr.py:348-373 | what a stratum reports from its sample averages to that same variance when at least two are drawn, and is zero otherwise |
| Unbiasedness.VarianceIsHonestIff | src/ts_sentry/measurement/vvr.py:342-373 | over all samples the reported variance averages to at most the mean squared error, and to exactly that when, and only when, no stratum with views of both kinds has a single one drawn |
| Json.EncodedCharIs | src/ts_sentry/orchestrator/firewall.py:311-347 | what both escaping passes make of each character |
| Json.TwoPasses | src/ts_sentry/orchestrator/firewall.py:339-355 | the second pass over an encoded string is one rewriting of its characters |
| Json.PassOverObject | src/ts_sentry/orchestrator/firewall.py:339-347 | the second pass changes string contents only, never the object's structure |
| Json.ReadEncoded | src/ts_sentry/orchestrator/firewall.py:601-612 | any text, encoded and closed, is read back as itself, leaving what follows |
| Json.ReadUnicodeEscape | src/ts_sentry/orchestrator/firewall.py:601-612 | every four-digit escape reads as its character, surrogates excepted |
| Json.HexDigitsEitherCase | src/ts_sentry/orchestrator/firewall.py:601-612 | escapes are read in upper and lower case |
| Json.ObjectRoundTrip | src/ts_sentry/orchestrator/firewall.py:350-355 | any object of strings put through both passes is read back as the same object |
| Fences.LineIsQuiet | src/ts_sentry/orchestrator/firewall.py:311-355 | a record's line holds no character splitlines breaks at and no U+001F, whatever the record holds |
| Fences.BodyIsClean | src/ts_sentry/orchestrator/firewall.py:350-372 | a body never carries U+001F |
| Fences.WrapsIff | src/ts_sentry/orchestrator/firewall.py:358-397 | wrapping succeeds exactly when the ids are distinct and one of the candidate tokens is not in the body |
| Fences.DeriveNonce | src/ts_sentry/orchestrator/firewall.py:358-372 | the loop takes the first of 64 candidate tokens the body does not contain |
| Fences.NonceOrigin | src/ts_sentry/orchestrator/firewall.py:358-372 | the nonce is the first 32 digits of the digest of domain, attempt and body, for the first of 64 attempts whose token the body does not contain |
| Fences.AttemptsDiffer | src/ts_sentry/orchestrator/firewall.py:358-372 | each attempt and each body digests a string of its own |
| Fences.Wrap | src/ts_sentry/orchestrator/firewall.py:388-397 | the loop over seen ids refuses at the first repeat, otherwise fences with the derived nonce |
| Fences.WrapIsSafe | src/ts_sentry/orchestrator/firewall.py:358-397 | wrapping is refused only for a repeated id or when all candidates occur; a block's nonce is 32 hex digits its body does not contain |
| Fences.RefusedForTheFirstRepeat | src/ts_sentry/orchestrator/firewall.py:388-397 | a refusal names the first id that comes up a second time |
| Fences.SplitJoined | src/ts_sentry/orchestrator/firewall.py:601-612 | joining break-free lines and splitting again gives the same lines |
| Fences.BreaksByCode | src/ts_sentry/orchestrator/firewall.py:601-612 | the ten characters splitlines breaks at |
| Fences.LineEnds | src/ts_sentry/orchestrator/firewall.py:601-612 | a line ends at the first break, and a carriage return with a newline after it is one break |
| Fences.BlocksHaveTwoFences | src/ts_sentry/orchestrator/firewall.py:601-612 | a text of fewer than two lines is no block, one of two lines a block without records |
| Fences.BlockLines | src/ts_sentry/orchestrator/firewall.py:399-410 | a rendered block splits into its fences and exactly one line per record |
| Fences.FencesCarryNonce | src/ts_sentry/orchestrator/firewall.py:96-98 | a rendered block begins and ends with the two fence lines, each with its nonce |
| Fences.FenceRoundTrip | src/ts_sentry/orchestrator/firewall.py:601-612 | parsing a rendered block gives the records' objects in order, for all records |
| Fences.BlocksReadBack | src/ts_sentry/orchestrator/firewall.py:408-426 | both copies of a wrapped block parse back exactly, the verbatim one to the very records |
| Fences.ModelCopyIsRedacted | src/ts_sentry/orchestrator/firewall.py:412-459 | the model's copy, read back, has each record under its id and source, with one nonce-carrying marker for each maximal stretch that signals naming the record cover, and every other character in order |
| Fences.ComposedFences | src/ts_sentry/orchestrator/firewall.py:567-585 | in a composed message the only fence lines are the block's two, and no line of the instruction holds a fence prefix or the nonce |
| Fences.ComposeReasons | src/ts_sentry/orchestrator/firewall.py:567-585 | an instruction is refused for the nonce, then for the opening prefix, then for the closing one |
| Fences.ComposedShowsRedacted | src/ts_sentry/orchestrator/firewall.py:567-585 | a message is the instruction, a blank line, a block that shows the records redacted, and nothing else |
| Fences.ComposedIsClean | src/ts_sentry/orchestrator/firewall.py:567-585 | a composed message carries U+001F exactly when its instruction does: case content cannot keep a request from being digested |
| Fences.ContentLacksNonce | src/ts_sentry/orchestrator/firewall.py:358-372 | no record of a wrapped block holds the block's nonce in any field |
| Fences.MarkersCannotBeForged | src/ts_sentry/orchestrator/firewall.py:588-598 | no text contains a marker with its block's nonce; in the redacted copy every marker carries the nonce and no gap does |
| Fences.NonceOnlyInMarkers | src/ts_sentry/orchestrator/firewall.py:449-459 | in the redacted copy every occurrence of the nonce lies inside a marker that was put there: none straddles a marker and what surrounds it |
| Redaction.MergeAll | src/ts_sentry/orchestrator/firewall.py:429-446 | the loop that overwrites the last span computes the merged spans |
| Redaction.MergedSpansCover | src/ts_sentry/orchestrator/firewall.py:429-446 | merged spans are in order with a gap between neighbours and cover exactly the signalled positions |
| Redaction.SpacedSpansAreUnique | src/ts_sentry/orchestrator/firewall.py:429-446 | such spans are determined by what they cover |
| Redaction.OrderDoesNotMatter | src/ts_sentry/orchestrator/firewall.py:429-446 | signals in any order give the same spans |
| Redaction.SpansAreNamed | src/ts_sentry/orchestrator/firewall.py:429-446 | each span carries the pattern of the longest signal starting where it starts |
| Redaction.RedactText | src/ts_sentry/orchestrator/firewall.py:449-459 | the cursor loop computes gaps and markers in turn |
| Redaction.RedactionConserves | src/ts_sentry/orchestrator/firewall.py:449-459 | the redacted text is the original's gaps with one marker per span, and the gaps are exactly the uncovered characters in order |
| Redaction.MarkersTellApart | src/ts_sentry/orchestrator/firewall.py:588-598 | a marker tells its pattern, its offset and its length |
| Bursts.BurstCount | src/ts_sentry/orchestrator/detection_stub.py:260-276 | the sliding window finds the size of the largest part of the timestamps with a spread of at most 24 hours, for every input order |
| Bursts.ADayIsTheEdge | src/ts_sentry/orchestrator/detection_stub.py:260-276 | two comments exactly a day apart are one burst, a microsecond more and they are not |
| WorkLists.PivotWorkList | src/ts_sentry/orchestrator/evidence_turn.py:259-278 | the two loops compute the work list |
| WorkLists.WorkListGrows | src/ts_sentry/orchestrator/evidence_turn.py:259-278 | appending entities leaves the old list a prefix of the new one |
| WorkLists.NoQuestionTwice | src/ts_sentry/orchestrator/evidence_turn.py:259-278 | no pair of pivot and entity is listed twice |
| WorkLists.WorkListIsComplete | src/ts_sentry/orchestrator/evidence_turn.py:241-278 | a pair is listed exactly when the id's first mention is of a kind the pivot applies to |
| WorkLists.KindsByName | src/ts_sentry/orchestrator/evidence_turn.py:241-256 | which pivots apply to channels and to accounts, and that none applies to anything else |
| WorkLists.WorkListInOrder | src/ts_sentry/orchestrator/evidence_turn.py:259-278 | the subject leads, earlier mentions come first, and questions about one entity come in the pivots' order |
| WorkLists.HopsAskDifferently | src/ts_sentry/orchestrator/evidence_turn.py:228-278 | while the evidence pack grows, different hops ask different questions until the list is used up |
| WorkLists.AskedInTurn | src/ts_sentry/orchestrator/evidence_turn.py:236-238 | each hop asks its own entry, and past the end the last one again |
| Anchors.SlugCharsAre | src/ts_sentry/data/policy_corpus.py:126 | the characters a slug keeps |
| Anchors.SlugIsItsWords | src/ts_sentry/data/policy_corpus.py:169-182 | a slug is the folded heading's runs of letters and digits with one hyphen between each two; a heading is refused exactly when it has none |
| Anchors.SameSlugIff | src/ts_sentry/data/policy_corpus.py:169-182 | two headings share a slug exactly when they have the same words in the same order |
| Anchors.AnchorsAreCitable | src/ts_sentry/data/policy_corpus.py:126-133 | one anchor per heading, each of the form a citation allows, unless some heading has no word |
| Anchors.AnchorIdsFor | src/ts_sentry/data/policy_corpus.py:185-199 | the counting loop computes the anchors, refusing at the first heading without a slug |
| Anchors.FreshHeadingShiftsNothing | src/ts_sentry/data/policy_corpus.py:185-199 | inserting a heading with a fresh slug anywhere leaves every other anchor unchanged |
| Anchors.AnchorsUniqueIff | src/ts_sentry/data/policy_corpus.py:185-199 | anchors are unique exactly when no slug spells another, repeated slug with one of its occurrence numbers |
| Anchors.AnchorsCanCollide | src/ts_sentry/data/policy_corpus.py:169-199 | headings "Examples", "Examples" and "Examples 2" get anchors of which two are equal |
| EvalMetrics.ScoreAll | src/ts_sentry/orchestrator/eval_labels.py:180-209 | the grading loop computes every class's support, predictions and true positives, or refuses unknown items |
| EvalMetrics.PairedClassCorrectness | src/ts_sentry/orchestrator/eval_labels.py:211-257 | the refusals in their order, with the first misaligned position, then every class's outcome pairs in order |
| EvalMetrics.PredictedAre | src/ts_sentry/orchestrator/eval_labels.py:180-209 | a class is predicted as often as positions name it |
| EvalMetrics.HitsAre | src/ts_sentry/orchestrator/eval_labels.py:180-209 | true positives are the positions that name the class their item carries |
| EvalMetrics.PairsAreOutcomes | src/ts_sentry/orchestrator/eval_labels.py:211-257 | one pair for each item of the class, in order: whether each version was right |
| EvalMetrics.RoadsAgree | src/ts_sentry/orchestrator/eval_labels.py:180-257 | for aligned versions that answered each label once, true positives are the pairs' column sums and support is their number |
| EvalMetrics.CountsAreConsistent | src/ts_sentry/orchestrator/eval_labels.py:66-72 | what score computes without repeated items never fails the counts' own check |
| EvalMetrics.DeltaIsTruePositives | src/ts_sentry/orchestrator/prompt_eval.py:156-193 | delta times support is the difference in true positives, bounded by the discordant count |
| EvalMetrics.ReportIsGrading | src/ts_sentry/orchestrator/prompt_eval.py:156-193 | the reported recalls are true positives over support, the delta their difference, and the discordant items those on which exactly one version was right |
| EvalMetrics.ResampleIsRecallDifference | src/ts_sentry/orchestrator/prompt_eval.py:170-175 | a resample gives the difference of the two recalls on the items drawn |
| EvalMetrics.QuantileInterpolates | src/ts_sentry/orchestrator/prompt_eval.py:176-178 | between two order statistics the quantile lies on the line between them |
| EvalMetrics.IntervalIsPercentile | src/ts_sentry/orchestrator/prompt_eval.py:170-193 | which ranks among the resampled differences the interval's two ends have, by the confidence level |
| EvalMetrics.MoreConfidenceIsWider | src/ts_sentry/orchestrator/prompt_eval.py:170-193 | more confidence never narrows the interval |
| EvalMetrics.IntervalBounds | src/ts_sentry/orchestrator/prompt_eval.py:170-193 | for every resampling the interval is ordered and lies between the least and greatest item difference |
| EvalMetrics.IntervalIsSound | src/ts_sentry/orchestrator/prompt_eval.py:137-193 | the interval lies in [-1, 1] and collapses to the delta when all differences are equal |

## Left out

- Human-readable detail strings, rendering to JSON, HTML, GraphML or text reports, the command line and file handling: presentation without an invariant.
- DuckDB and SQL: the ledger table is a sequence of rows, the view frame is two columns, query text is not modelled.
- Clocks: a session's clock is an arbitrary sequence of canonical timestamp strings; time zones and formatting are not modelled.
- SHA-256 itself, payload JSON and mandate canonical forms: payload and mandate digests are arbitrary functions of the payload and the mandate.
- The live adapter, the stub adapter, backoff delays and what a request digests to: an attempt's answer is arbitrary, a sleep is only counted, and of the digest only whether it can be taken is modelled.
- Parsing of proposals and memo drafts, the text of instructions, and the handlers that build evidence packs: what they return is an arbitrary answer.
- Exceptions other than those listed above: an adapter or a handler that raises what its interface does not declare would raise out of a turn as well. A review that fails, in whatever way, is the one outcome `ByReviewer`.
- Regular-expression scanning: signals are arbitrary non-empty spans inside the text.
- Json.ObjectRoundTrip: lone surrogates and surrogate-pair escapes are not modelled, because Dafny characters are Unicode scalar values, and the encoder never writes such an escape. `Json.LoadObject` reads objects of strings only.
- Anchors.AnchorIdsFor: stripping and lower-casing a heading are one arbitrary function `fold`, because they are Unicode operations; the regular expression, the trimming and the refusal that follow are modelled.
- Floating point: targets, rates and quantiles are reals; the square roots in the Neyman keys are not taken, keys are any non-negative reals, and the standard error's root is a parameter.
- The pilot's own draw: its only effect on the measurement is through the keys, which are arbitrary.
- The bootstrap check, its width ratio and the interval's coverage: a normal approximation, which is not stated here.
- Precision, recall and F1 rounding, label digests and the report object around the deltas.
- `free`, `pinned` and `targets` in `_allocate` are one list of marks and one of targets instead of a set and two dictionaries; empty strata stay in those lists with value zero and cap zero.
- View frame construction, risk scoring and band cuts; the flagged queue around the burst count.
