/** The append-only, hash-chained ledger (governance/ledger.py). */
module Ledgers {
  import opened Prelude
  import opened Canonical
  import opened Mandates

  datatype EventType =
    | PromptSent
    | ToolCalled
    | ToolResult
    | OutputProposed
    | VerificationPass
    | VerificationFail
    | GateRejection
    | HumanDecision
    | MandateViolationAttempt
    | SessionOpen
    | SessionClose

  function EventName(e: EventType): string {
    match e
    case PromptSent => "prompt_sent"
    case ToolCalled => "tool_called"
    case ToolResult => "tool_result"
    case OutputProposed => "output_proposed"
    case VerificationPass => "verification_pass"
    case VerificationFail => "verification_fail"
    case GateRejection => "gate_rejection"
    case HumanDecision => "human_decision"
    case MandateViolationAttempt => "mandate_violation_attempt"
    case SessionOpen => "session_open"
    case SessionClose => "session_close"
  }

  const LEDGER_DOMAIN: string := "ts-sentry/ledger-entry/v1"

  /** prev_hash of the first entry. */
  const GENESIS: Hex := Repeat('0', 64)

  /** One immutable step in the chain. The timestamp is its canonical string, the bytes that
      are hashed. Construction checks field shapes and never the entry's own hash. */
  datatype LedgerEntry = LedgerEntry(
    seqNo: nat,
    timestamp: Text,
    agent: Option<AgentId>,
    mandateHash: Hex,
    event: EventType,
    payloadDigest: Hex,
    prevHash: Hex,
    entryHash: Hex)

  function AgentField(agent: Option<AgentId>): string {
    match agent
    case None => ""
    case Some(a) => AgentName(a)
  }

  // The eight fields the entry hash covers, in order.
  function HashedFields(e: LedgerEntry): seq<string> {
    [LEDGER_DOMAIN, Dec(e.seqNo), e.timestamp, AgentField(e.agent), e.mandateHash,
     EventName(e.event), e.payloadDigest, e.prevHash]
  }

  lemma HashedFieldsClean(e: LedgerEntry)
    ensures AllClean(HashedFields(e))
  {
    HexIsClean(e.mandateHash);
    HexIsClean(e.payloadDigest);
    HexIsClean(e.prevHash);
    assert Clean(Dec(e.seqNo));
    assert Clean(EventName(e.event));
    assert Clean(AgentField(e.agent));
  }

  /** The string an entry's hash is taken over. */
  function Preimage(e: LedgerEntry): string { Join(HashedFields(e)) }

  /** The order in which the fields are hashed, each set off from the next by one separator. */
  lemma PreimageIs(e: LedgerEntry)
    ensures var u := [SEPARATOR];
            Preimage(e) == LEDGER_DOMAIN + u + (Dec(e.seqNo) + u + (e.timestamp + u + (AgentField(e.agent) + u +
              (e.mandateHash + u + (EventName(e.event) + u + (e.payloadDigest + u + e.prevHash))))))
  {
    var f := HashedFields(e);
    JoinSplits(f);
    JoinSplits(f[1..]);
    JoinSplits(f[2..]);
    JoinSplits(f[3..]);
    JoinSplits(f[4..]);
    JoinSplits(f[5..]);
    JoinSplits(f[6..]);
    assert f[1..][1..] == f[2..] && f[2..][1..] == f[3..] && f[3..][1..] == f[4..];
    assert f[4..][1..] == f[5..] && f[5..][1..] == f[6..] && f[6..][1..] == f[7..] && f[7..] == [e.prevHash];
    assert Join(f[7..]) == e.prevHash;
    hide Join;
  }

  lemma JoinSplits(f: seq<string>)
    requires |f| > 1
    ensures Join(f) == f[0] + [SEPARATOR] + Join(f[1..])
  {
  }

  /** recomputed_hash. */
  function RecomputedHash(h: Hasher, e: LedgerEntry): Hex {
    HashedFieldsClean(e);
    Digest(h, HashedFields(e))
  }

  lemma NamesInjective(d: EventType, e: EventType, a: Option<AgentId>, b: Option<AgentId>)
    ensures EventName(d) == EventName(e) ==> d == e
    ensures AgentField(a) == AgentField(b) ==> a == b
  {
    var s, t := EventName(d), EventName(e);
    if s == t {
      assert |s| == |t|;
      assert s[0] == t[0] && s[5] == t[5];
      if |s| == 17 {
        assert s[13] == t[13];
      }
    }
    if AgentField(a) == AgentField(b) {
      assert |AgentField(a)| == |AgentField(b)|;
    }
  }

  /** The event types as they are hashed. */
  lemma EventNames()
    ensures EventName(PromptSent) == "prompt_sent" && EventName(ToolCalled) == "tool_called"
    ensures EventName(ToolResult) == "tool_result" && EventName(OutputProposed) == "output_proposed"
    ensures EventName(VerificationPass) == "verification_pass" && EventName(VerificationFail) == "verification_fail"
    ensures EventName(GateRejection) == "gate_rejection" && EventName(HumanDecision) == "human_decision"
    ensures EventName(MandateViolationAttempt) == "mandate_violation_attempt"
    ensures EventName(SessionOpen) == "session_open" && EventName(SessionClose) == "session_close"
  {
  }

  /** Two entries with the same preimage agree on every hashed field. */
  lemma PreimageInjective(d: LedgerEntry, e: LedgerEntry)
    requires Preimage(d) == Preimage(e)
    ensures d.(entryHash := e.entryHash) == e
  {
    HashedFieldsClean(d);
    HashedFieldsClean(e);
    var f, g := HashedFields(d), HashedFields(e);
    JoinInjective(f, g);
    assert f[1] == g[1] && f[2] == g[2] && f[3] == g[3] && f[4] == g[4];
    assert f[5] == g[5] && f[6] == g[6] && f[7] == g[7];
    DecInjective(d.seqNo, e.seqNo);
    NamesInjective(d.event, e.event, d.agent, e.agent);
  }

  // ------------------------------------------------------------------
  // Verification
  // ------------------------------------------------------------------

  datatype BreakReason =
    | SeqNotContiguous
    | GenesisPrevHashWrong
    | PrevHashMismatch
    | EntryHashMismatch

  datatype ChainVerification =
    | IntactChain(entriesChecked: nat)
    | BrokenChain(entriesChecked: nat, firstBrokenSeq: nat, reason: BreakReason)

  datatype ChainHead = ChainHead(count: int, entryHash: Hex)

  function HeadOf(entries: seq<LedgerEntry>): ChainHead {
    if entries == [] then ChainHead(0, GENESIS) else ChainHead(|entries|, entries[|entries| - 1].entryHash)
  }

  /** What append() continues from: the tail row's own sequence number and hash. */
  function TailOf(table: seq<LedgerEntry>): ChainHead {
    if table == [] then ChainHead(0, GENESIS)
    else ChainHead(table[|table| - 1].seqNo + 1, table[|table| - 1].entryHash)
  }

  /** The hash the entry at position i has to link back to. */
  function LinkHash(entries: seq<LedgerEntry>, i: nat): Hex
    requires i <= |entries|
  {
    if i == 0 then GENESIS else entries[i - 1].entryHash
  }

  // What is wrong with the entry at one position, if anything; the order is the code's.
  function Fault(h: Hasher, entries: seq<LedgerEntry>, i: nat): Option<BreakReason>
    requires i < |entries|
  {
    var e := entries[i];
    if e.seqNo != i then Some(SeqNotContiguous)
    else if i == 0 && e.prevHash != GENESIS then Some(GenesisPrevHashWrong)
    else if e.prevHash != LinkHash(entries, i) then Some(PrevHashMismatch)
    else if e.entryHash != RecomputedHash(h, e) then Some(EntryHashMismatch)
    else None
  }

  ghost predicate Intact(h: Hasher, entries: seq<LedgerEntry>) {
    forall i | 0 <= i < |entries| :: Fault(h, entries, i) == None
  }

  /** The chain is sound before position i and faulty there. */
  ghost predicate BreaksAt(h: Hasher, entries: seq<LedgerEntry>, i: nat, reason: BreakReason) {
    && i < |entries|
    && (forall j | 0 <= j < i :: Fault(h, entries, j) == None)
    && Fault(h, entries, i) == Some(reason)
  }

  /** verify_chain: the shared core of every reader. */
  method VerifyChain(h: Hasher, entries: seq<LedgerEntry>) returns (v: ChainVerification)
    ensures v.IntactChain? <==> Intact(h, entries)
    ensures v.entriesChecked == if v.IntactChain? then |entries| else v.firstBrokenSeq
    ensures v.BrokenChain? ==> BreaksAt(h, entries, v.firstBrokenSeq, v.reason)
    ensures v.BrokenChain? && v.reason == PrevHashMismatch ==> v.firstBrokenSeq > 0
  {
    var prevHash := GENESIS;
    var checked := 0;
    for position := 0 to |entries|
      invariant prevHash == LinkHash(entries, position)
      invariant checked == position
      invariant forall j | 0 <= j < position :: Fault(h, entries, j) == None
    {
      var entry := entries[position];
      ghost var fault := Fault(h, entries, position);
      if entry.seqNo != position {
        return BrokenChain(checked, position, SeqNotContiguous);
      }
      if position == 0 && entry.prevHash != GENESIS {
        return BrokenChain(checked, position, GenesisPrevHashWrong);
      }
      if entry.prevHash != prevHash {
        return BrokenChain(checked, entry.seqNo, PrevHashMismatch);
      }
      var recomputed := RecomputedHash(h, entry);
      if entry.entryHash != recomputed {
        return BrokenChain(checked, entry.seqNo, EntryHashMismatch);
      }
      prevHash := entry.entryHash;
      checked := checked + 1;
    }
    return IntactChain(checked);
  }

  // ------------------------------------------------------------------
  // What the chain proves about its history
  // ------------------------------------------------------------------

  /** Two different strings with one hash, both hashed while verifying these two chains. */
  ghost predicate Collision(h: Hasher, a: seq<LedgerEntry>, b: seq<LedgerEntry>) {
    exists i, j | 0 <= i < |a| && 0 <= j < |b| ::
      Preimage(a[i]) != Preimage(b[j]) && h(Preimage(a[i])) == h(Preimage(b[j]))
  }

  /** One shared entry hash pins the whole past: everything up to it is identical. */
  lemma {:induction false} SharedHashSharesPast(h: Hasher, a: seq<LedgerEntry>, b: seq<LedgerEntry>, i: nat)
    requires Intact(h, a) && Intact(h, b) && !Collision(h, a, b)
    requires i < |a| && i < |b| && a[i].entryHash == b[i].entryHash
    ensures a[..i + 1] == b[..i + 1]
  {
    assert Fault(h, a, i) == None && Fault(h, b, i) == None;
    assert h(Preimage(a[i])) == h(Preimage(b[i]));
    PreimageInjective(a[i], b[i]);
    if i > 0 {
      SharedHashSharesPast(h, a, b, i - 1);
    }
    assert a[..i + 1] == a[..i] + [a[i]] && b[..i + 1] == b[..i] + [b[i]];
  }

  /** The head determines the history. */
  lemma HeadDeterminesHistory(h: Hasher, a: seq<LedgerEntry>, b: seq<LedgerEntry>)
    requires Intact(h, a) && Intact(h, b) && !Collision(h, a, b)
    ensures HeadOf(a) == HeadOf(b) <==> a == b
  {
    if HeadOf(a) == HeadOf(b) && a != [] {
      SharedHashSharesPast(h, a, b, |a| - 1);
      assert a[..|a|] == a && b[..|b|] == b;
    }
  }

  // Entries away from a rewritten position keep their standing.
  lemma RewriteIsLocal(h: Hasher, chain: seq<LedgerEntry>, forged: seq<LedgerEntry>, i: nat)
    requires Intact(h, chain) && i < |chain| == |forged| && forged == chain[i := forged[i]]
    ensures forall j | 0 <= j < |chain| && j != i && j != i + 1 :: Fault(h, forged, j) == None
  {
    forall j | 0 <= j < |chain| && j != i && j != i + 1
      ensures Fault(h, forged, j) == None
    {
      assert Fault(h, chain, j) == None;
    }
  }

  // A rewritten entry that still verifies on its own carries another hash.
  lemma RewriteMovesTheHash(h: Hasher, chain: seq<LedgerEntry>, i: nat, e: LedgerEntry)
    requires Intact(h, chain) && i < |chain| && e != chain[i]
    requires !Collision(h, chain, [e])
    requires Fault(h, chain[i := e], i) == None
    ensures e.entryHash != chain[i].entryHash
  {
    assert Fault(h, chain, i) == None;
    if e.entryHash == chain[i].entryHash {
      assert h(Preimage(chain[i])) == h(Preimage([e][0]));
      PreimageInjective(chain[i], e);
    }
  }

  /** Any rewrite of one entry is caught: at the entry itself, or at the next link, or, for the
      last entry, by the head. */
  lemma RewriteIsCaught(h: Hasher, chain: seq<LedgerEntry>, i: nat, e: LedgerEntry)
    requires Intact(h, chain) && i < |chain| && e != chain[i]
    requires !Collision(h, chain, [e])
    ensures var forged := chain[i := e];
            || (exists r :: BreaksAt(h, forged, i, r))
            || (i + 1 < |chain| && BreaksAt(h, forged, i + 1, PrevHashMismatch))
            || (i + 1 == |chain| && Intact(h, forged) && HeadOf(forged) != HeadOf(chain))
  {
    var forged := chain[i := e];
    RewriteIsLocal(h, chain, forged, i);
    if Fault(h, forged, i) == None {
      RewriteMovesTheHash(h, chain, i, e);
      if i + 1 < |chain| {
        assert Fault(h, chain, i + 1) == None;
      }
    } else {
      assert BreaksAt(h, forged, i, Fault(h, forged, i).value);
    }
  }

  // Exactly one field differs.
  ghost predicate OneFieldChanged(d: LedgerEntry, e: LedgerEntry) {
    d != e &&
    (|| d.(seqNo := e.seqNo) == e
     || d.(timestamp := e.timestamp) == e
     || d.(agent := e.agent) == e
     || d.(mandateHash := e.mandateHash) == e
     || d.(event := e.event) == e
     || d.(payloadDigest := e.payloadDigest) == e
     || d.(prevHash := e.prevHash) == e
     || d.(entryHash := e.entryHash) == e)
  }

  /** Changing any one field of one entry is reported at exactly that entry, with the reason
      its field calls for. */
  lemma FieldTamperLocalised(h: Hasher, chain: seq<LedgerEntry>, i: nat, e: LedgerEntry)
    requires Intact(h, chain) && i < |chain| && OneFieldChanged(chain[i], e)
    requires !Collision(h, chain, [e])
    ensures BreaksAt(h, chain[i := e], i,
                     if e.seqNo != chain[i].seqNo then SeqNotContiguous
                     else if e.prevHash != chain[i].prevHash
                     then (if i == 0 then GenesisPrevHashWrong else PrevHashMismatch)
                     else EntryHashMismatch)
  {
    var forged := chain[i := e];
    assert Fault(h, chain, i) == None;
    forall j | 0 <= j < i ensures Fault(h, forged, j) == None {
      assert Fault(h, chain, j) == None;
    }
    if e.seqNo == chain[i].seqNo && e.prevHash == chain[i].prevHash && e.entryHash == chain[i].entryHash {
      if h(Preimage(e)) == h(Preimage(chain[i])) {
        assert [e][0] == e;
        PreimageInjective(chain[i], e);
        assert false;
      }
    }
  }

  /** However the entries of an intact chain are deleted, reordered or repeated, verification
      stops at the first position that differs from the chain itself; an arrangement with no
      such position is a prefix, and verifies. */
  lemma RearrangementLocalised(h: Hasher, chain: seq<LedgerEntry>, other: seq<LedgerEntry>)
    requires Intact(h, chain) && (forall e | e in other :: e in chain)
    ensures Intact(h, other) <==> other <= chain
    ensures forall i: nat | i < |other| && other[..i] <= chain && !(other[..i + 1] <= chain) ::
              BreaksAt(h, other, i, SeqNotContiguous)
  {
    if other <= chain {
      PrefixFaults(h, chain, other, |other|);
    }
    forall i: nat | i < |other| && other[..i] <= chain && !(other[..i + 1] <= chain)
      ensures BreaksAt(h, other, i, SeqNotContiguous)
    {
      PrefixFaults(h, chain, other, i);
      assert other[i] in chain;
      var k :| 0 <= k < |chain| && chain[k] == other[i];
      assert Fault(h, chain, k) == None;
      assert other[..i + 1] == other[..i] + [other[i]];
    }
    if !(other <= chain) {
      var i := FirstDeparture(chain, other);
      assert BreaksAt(h, other, i, SeqNotContiguous);
    }
  }

  lemma PrefixFaults(h: Hasher, chain: seq<LedgerEntry>, other: seq<LedgerEntry>, n: nat)
    requires Intact(h, chain) && n <= |other| && other[..n] <= chain
    ensures forall j | 0 <= j < n :: Fault(h, other, j) == None
  {
    forall j | 0 <= j < n ensures Fault(h, other, j) == None {
      assert Fault(h, chain, j) == None;
      assert other[j] == other[..n][j] == chain[j];
      assert j > 0 ==> other[j - 1] == other[..n][j - 1] == chain[j - 1];
    }
  }

  lemma FirstDeparture(chain: seq<LedgerEntry>, other: seq<LedgerEntry>) returns (i: nat)
    requires !(other <= chain)
    ensures i < |other| && other[..i] <= chain && !(other[..i + 1] <= chain)
  {
    i := 0;
    while i < |chain| && i < |other| && other[i] == chain[i]
      invariant i <= |chain| && i <= |other| && other[..i] == chain[..i]
    {
      assert other[..i + 1] == other[..i] + [other[i]] && chain[..i + 1] == chain[..i] + [chain[i]];
      i := i + 1;
    }
    assert other[..|other|] == other;
    assert i < |other| ==> other[..i + 1][i] == other[i];
  }

  /** Deleting an interior block is reported where the block began. */
  lemma DeletionLocalised(h: Hasher, chain: seq<LedgerEntry>, i: nat, j: nat)
    requires Intact(h, chain) && i < j < |chain|
    ensures BreaksAt(h, chain[..i] + chain[j..], i, SeqNotContiguous)
  {
    var other := chain[..i] + chain[j..];
    forall e | e in other ensures e in chain {
    }
    assert other[..i] == chain[..i];
    assert Fault(h, chain, i) == None && Fault(h, chain, j) == None;
    assert other[..i + 1][i] == chain[j];
    assert chain[j] != chain[i];
    RearrangementLocalised(h, chain, other);
  }

  /** Truncating the tail leaves a chain that verifies; only the head tells. */
  lemma TruncationNeedsTheHead(h: Hasher, chain: seq<LedgerEntry>, n: nat)
    requires Intact(h, chain) && n < |chain|
    ensures Intact(h, chain[..n]) && HeadOf(chain[..n]) != HeadOf(chain)
  {
    PrefixFaults(h, chain, chain[..n], n);
  }

  // ------------------------------------------------------------------
  // The store
  // ------------------------------------------------------------------

  /** The entry append() writes behind a tail. */
  function NextEntry(h: Hasher, tail: ChainHead, timestamp: Text, agent: Option<AgentId>,
                     mandateHash: Hex, event: EventType, payloadDigest: Hex): LedgerEntry
    requires tail.count >= 0
  {
    var e := LedgerEntry(tail.count, timestamp, agent, mandateHash, event, payloadDigest, tail.entryHash, GENESIS);
    e.(entryHash := RecomputedHash(h, e))
  }

  /** On an intact chain the tail row tells the head. */
  lemma TailIsHead(h: Hasher, chain: seq<LedgerEntry>)
    requires Intact(h, chain)
    ensures TailOf(chain) == HeadOf(chain)
  {
    if chain != [] {
      assert Fault(h, chain, |chain| - 1) == None;
    }
  }

  /** Appending the next entry keeps a chain intact. */
  lemma AppendKeepsIntact(h: Hasher, chain: seq<LedgerEntry>, timestamp: Text, agent: Option<AgentId>,
                          mandateHash: Hex, event: EventType, payloadDigest: Hex)
    requires Intact(h, chain)
    ensures Intact(h, chain + [NextEntry(h, TailOf(chain), timestamp, agent, mandateHash, event, payloadDigest)])
  {
    TailIsHead(h, chain);
    var e := NextEntry(h, TailOf(chain), timestamp, agent, mandateHash, event, payloadDigest);
    var longer := chain + [e];
    forall i | 0 <= i < |longer| ensures Fault(h, longer, i) == None {
      if i < |chain| {
        assert Fault(h, chain, i) == None;
      } else {
        assert HashedFields(e) == HashedFields(e.(entryHash := GENESIS));
      }
    }
  }

  // The table's primary key is seq and every read orders by it.
  ghost predicate OrderedBySeq(table: seq<LedgerEntry>) {
    forall i, j | 0 <= i < j < |table| :: table[i].seqNo < table[j].seqNo
  }

  /** The store: one table and a cached tail. */
  class Ledger {
    const hash: Hasher
    var table: seq<LedgerEntry>
    var lastSeq: int
    var lastHash: Hex

    /** The cache is the tail row of an ordered table, whatever the table holds. */
    ghost predicate Cached()
      reads this
    {
      OrderedBySeq(table) && Head() == TailOf(table)
    }

    /** Opening a store reads its tail row and trusts nothing else. */
    constructor (hash: Hasher, rows: seq<LedgerEntry>)
      requires OrderedBySeq(rows)
      ensures Cached() && this.hash == hash && table == rows
      ensures Intact(hash, rows) ==> Head() == HeadOf(rows)
    {
      this.hash := hash;
      table := rows;
      if rows == [] {
        lastSeq := -1;
        lastHash := GENESIS;
      } else {
        lastSeq := rows[|rows| - 1].seqNo;
        lastHash := rows[|rows| - 1].entryHash;
      }
      new;
      if Intact(hash, rows) {
        TailIsHead(hash, rows);
      }
    }

    /** The head, from the cached tail rather than a rescan. */
    function Head(): ChainHead
      reads this
    {
      ChainHead(lastSeq + 1, lastHash)
    }

    /** One entry behind the tail, linked to it. An intact chain stays intact. */
    method Append(timestamp: Text, agent: Option<AgentId>, mandateHash: Hex, event: EventType,
                  payloadDigest: Hex)
      returns (entry: LedgerEntry)
      requires Cached()
      modifies this
      ensures Cached() && (old(Intact(hash, table)) ==> Intact(hash, table))
      ensures entry == NextEntry(hash, TailOf(old(table)), timestamp, agent, mandateHash, event, payloadDigest)
      ensures table == old(table) + [entry]
    {
      var seqNo := lastSeq + 1;
      entry := NextEntry(hash, ChainHead(seqNo, lastHash), timestamp, agent, mandateHash, event, payloadDigest);
      if Intact(hash, table) {
        AppendKeepsIntact(hash, table, timestamp, agent, mandateHash, event, payloadDigest);
      }
      table := table + [entry];
      lastSeq := entry.seqNo;
      lastHash := entry.entryHash;
    }

    method Verify() returns (v: ChainVerification)
      ensures v.IntactChain? <==> Intact(hash, table)
      ensures v.entriesChecked == if v.IntactChain? then |table| else v.firstBrokenSeq
      ensures v.BrokenChain? ==> BreaksAt(hash, table, v.firstBrokenSeq, v.reason)
    {
      v := VerifyChain(hash, table);
    }
  }
}
