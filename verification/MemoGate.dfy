/** The RECOMMEND gate over a drafted memo: bindings, claims and citations
    (orchestrator/memo_gate.py, orchestrator/citation_resolver.py, governance/verifier.py). */
module MemoGates {
  import opened Prelude
  import opened Artifacts
  import opened Gates

  // ------------------------------------------------------------------
  // Words
  // ------------------------------------------------------------------

  /** The characters Python's str.split() splits on. */
  predicate IsSpace(c: char) {
    || '\t' <= c <= '\r'
    || '\U{1C}' <= c <= ' '
    || c == '\U{85}' || c == '\U{A0}' || c == '\U{1680}'
    || '\U{2000}' <= c <= '\U{200A}'
    || c == '\U{2028}' || c == '\U{2029}' || c == '\U{202F}' || c == '\U{205F}' || c == '\U{3000}'
  }

  /** The same, by code point. */
  lemma BlanksByCode(c: char)
    ensures IsSpace(c) <==>
              c as int in {9, 10, 11, 12, 13, 28, 29, 30, 31, 32, 133, 160, 5760, 8192, 8193, 8194, 8195, 8196, 8197, 8198,
                           8199, 8200, 8201, 8202, 8232, 8233, 8239, 8287, 12288}
  {
  }

  predicate Solid(s: string) { forall i | 0 <= i < |s| :: !IsSpace(s[i]) }

  predicate Blank(s: string) { forall i | 0 <= i < |s| :: IsSpace(s[i]) }

  // The words of a text that continues a word already begun.
  function WordsFrom(text: string, begun: string): seq<string> {
    var done := if begun == "" then [] else [begun];
    if text == "" then done
    else if IsSpace(text[0]) then done + WordsFrom(text[1..], "")
    else WordsFrom(text[1..], begun + [text[0]])
  }

  /** str.split(): the maximal runs of non-space characters, in order. */
  function Words(text: string): seq<string> { WordsFrom(text, "") }

  lemma {:induction false} SolidIsOneWord(text: string, begun: string)
    requires Solid(text) && begun + text != ""
    ensures WordsFrom(text, begun) == [begun + text]
    decreases |text|
  {
    if text == "" {
      assert begun + text == begun;
    } else {
      SolidIsOneWord(text[1..], begun + [text[0]]);
      assert begun + [text[0]] + text[1..] == begun + text;
    }
  }

  lemma {:induction false} SpaceSplits(a: string, space: char, b: string, begun: string)
    requires IsSpace(space)
    ensures WordsFrom(a + [space] + b, begun) == WordsFrom(a, begun) + WordsFrom(b, "")
    decreases |a|
  {
    var t := a + [space] + b;
    if a == "" {
      assert t[1..] == b;
    } else {
      assert t[1..] == a[1..] + [space] + b;
      if IsSpace(a[0]) {
        SpaceSplits(a[1..], space, b, "");
      } else {
        SpaceSplits(a[1..], space, b, begun + [a[0]]);
      }
    }
  }

  lemma {:induction false} WordsAreSolid(text: string, begun: string)
    requires Solid(begun)
    ensures forall w | w in WordsFrom(text, begun) :: w != "" && Solid(w)
    decreases |text|
  {
    if text != "" {
      if IsSpace(text[0]) {
        WordsAreSolid(text[1..], "");
      } else {
        WordsAreSolid(text[1..], begun + [text[0]]);
      }
    }
  }

  function Spaced(words: seq<string>, gap: string): string {
    if words == [] then "" else if |words| == 1 then words[0] else words[0] + gap + Spaced(words[1..], gap)
  }

  lemma {:induction false} BlankVanishes(gap: string, b: string)
    requires Blank(gap)
    ensures Words(gap + b) == Words(b)
    decreases |gap|
  {
    if gap == "" {
      assert gap + b == b;
    } else {
      BlankVanishes(gap[1..], b);
      assert (gap + b)[1..] == gap[1..] + b;
    }
  }

  /** Wrapping a text differently changes none of its words: any blank gap between words splits
      back into the same words, and what split() returns are always such words. */
  lemma {:induction false} RewrappingKeepsWords(words: seq<string>, gap: string)
    requires (forall w | w in words :: w != "" && Solid(w)) && gap != "" && Blank(gap)
    ensures Words(Spaced(words, gap)) == words
    decreases |words|
  {
    if words == [] {
    } else if |words| == 1 {
      SolidIsOneWord(words[0], "");
      assert "" + words[0] == words[0];
    } else {
      var rest := Spaced(words[1..], gap);
      assert forall w | w in words[1..] :: w in words;
      RewrappingKeepsWords(words[1..], gap);
      assert words[0] + gap + rest == words[0] + [gap[0]] + (gap[1..] + rest);
      SpaceSplits(words[0], gap[0], gap[1..] + rest, "");
      SolidIsOneWord(words[0], "");
      assert "" + words[0] == words[0];
      BlankVanishes(gap[1..], rest);
    }
  }

  /** Whether the excerpt is in the clause as whole words, in order, with nothing between them. */
  predicate IsContiguousQuotation(excerpt: string, clauseText: string) {
    var needle, haystack := Words(excerpt), Words(clauseText);
    && needle != [] && |needle| <= |haystack|
    && exists start | 0 <= start <= |haystack| - |needle| :: OccursAt(needle, haystack, start)
  }

  lemma QuotationMeaning(excerpt: string, clauseText: string)
    ensures IsContiguousQuotation(excerpt, clauseText)
            <==> Words(excerpt) != [] && exists before, after :: Words(clauseText) == before + Words(excerpt) + after
  {
    hide Words;
    var needle, haystack := Words(excerpt), Words(clauseText);
    if IsContiguousQuotation(excerpt, clauseText) {
      var start :| 0 <= start <= |haystack| - |needle| && OccursAt(needle, haystack, start);
      assert haystack == haystack[..start] + needle + haystack[start + |needle|..];
    }
    if needle != [] && exists before, after :: haystack == before + needle + after {
      var before, after :| haystack == before + needle + after;
      assert haystack[|before|..|before| + |needle|] == needle;
      assert OccursAt(needle, haystack, |before|);
      assert 0 <= |before| <= |haystack| - |needle|;
    }
  }

  // ------------------------------------------------------------------
  // Citations
  // ------------------------------------------------------------------

  datatype PolicyClause = PolicyClause(anchor: string, text: string)

  datatype PolicyDocument = PolicyDocument(contentDigest: string, clauses: seq<PolicyClause>)

  datatype PolicyCorpus = PolicyCorpus(sha256: string, documents: seq<PolicyDocument>)

  const MIN_EXCERPT_WORDS: nat := 4
  const MAX_EXCERPT_WORDS: nat := 15

  datatype CitationFailure = UnknownDocument | PhantomAnchor | ExcerptTooLong | ExcerptTooShort | ExcerptNotInClause

  function FindDocument(documents: seq<PolicyDocument>, digest: string): Option<PolicyDocument> {
    if documents == [] then None
    else if documents[0].contentDigest == digest then Some(documents[0])
    else FindDocument(documents[1..], digest)
  }

  function FindClause(clauses: seq<PolicyClause>, anchor: string): Option<PolicyClause> {
    if clauses == [] then None
    else if clauses[0].anchor == anchor then Some(clauses[0])
    else FindClause(clauses[1..], anchor)
  }

  /** resolve_citation: None when it resolves, else the first thing wrong with it. */
  function ResolveCitation(citation: PolicyCitation, corpus: PolicyCorpus): Option<CitationFailure> {
    var document := FindDocument(corpus.documents, citation.contentDigest);
    if document == None then Some(UnknownDocument)
    else
      var clause := FindClause(document.value.clauses, citation.anchor);
      if clause == None then Some(PhantomAnchor)
      else
        var words := |Words(citation.excerpt)|;
        if words > MAX_EXCERPT_WORDS then Some(ExcerptTooLong)
        else if words < MIN_EXCERPT_WORDS then Some(ExcerptTooShort)
        else if !IsContiguousQuotation(citation.excerpt, clause.value.text) then Some(ExcerptNotInClause)
        else None
  }

  /** What a memo's reader relies on: some document of the corpus has the cited digest, some clause
      of it the cited anchor, and the excerpt is four to fifteen consecutive whole words of that clause. */
  ghost predicate Quotes(citation: PolicyCitation, corpus: PolicyCorpus) {
    exists d, c, before, after ::
      && d in corpus.documents && d.contentDigest == citation.contentDigest
      && c in d.clauses && c.anchor == citation.anchor
      && MIN_EXCERPT_WORDS <= |Words(citation.excerpt)| <= MAX_EXCERPT_WORDS
      && Words(c.text) == before + Words(citation.excerpt) + after
  }

  // Digests name documents and anchors name clauses, as a loaded corpus guarantees.
  ghost predicate Unambiguous(corpus: PolicyCorpus) {
    && (forall d, e | d in corpus.documents && e in corpus.documents && d.contentDigest == e.contentDigest :: d == e)
    && (forall d, b, c | d in corpus.documents && b in d.clauses && c in d.clauses && b.anchor == c.anchor :: b == c)
  }

  lemma {:induction false} FindDocumentFinds(documents: seq<PolicyDocument>, digest: string)
    ensures FindDocument(documents, digest).Some? <==> exists d :: d in documents && d.contentDigest == digest
    ensures var f := FindDocument(documents, digest); f.Some? ==> f.value in documents && f.value.contentDigest == digest
  {
    if documents != [] && documents[0].contentDigest != digest {
      FindDocumentFinds(documents[1..], digest);
      assert documents == [documents[0]] + documents[1..];
    }
  }

  lemma {:induction false} FindClauseFinds(clauses: seq<PolicyClause>, anchor: string)
    ensures FindClause(clauses, anchor).Some? <==> exists c :: c in clauses && c.anchor == anchor
    ensures var f := FindClause(clauses, anchor); f.Some? ==> f.value in clauses && f.value.anchor == anchor
  {
    if clauses != [] && clauses[0].anchor != anchor {
      FindClauseFinds(clauses[1..], anchor);
      assert clauses == [clauses[0]] + clauses[1..];
    }
  }

  /** A citation that resolves quotes the corpus; over an unambiguous corpus it resolves exactly then. */
  lemma ResolvesMeaning(citation: PolicyCitation, corpus: PolicyCorpus)
    ensures ResolveCitation(citation, corpus) == None ==> Quotes(citation, corpus)
    ensures Unambiguous(corpus) && Quotes(citation, corpus) ==> ResolveCitation(citation, corpus) == None
  {
    hide Words, IsContiguousQuotation;
    FindDocumentFinds(corpus.documents, citation.contentDigest);
    var document := FindDocument(corpus.documents, citation.contentDigest);
    if document.Some? {
      FindClauseFinds(document.value.clauses, citation.anchor);
      var clause := FindClause(document.value.clauses, citation.anchor);
      if clause.Some? {
        QuotationMeaning(citation.excerpt, clause.value.text);
        if ResolveCitation(citation, corpus) == None {
          var before, after :| Words(clause.value.text) == before + Words(citation.excerpt) + after;
        }
      }
    }
  }

  // ------------------------------------------------------------------
  // Claims
  // ------------------------------------------------------------------

  datatype ReasonCode = NoEvidenceCited | UnresolvableEvidenceId

  datatype ClaimResult = ClaimResult(index: nat, reason: Option<ReasonCode>, unresolvable: set<string>)

  function JudgeClaim(index: nat, cited: set<string>, resolvable: set<string>): ClaimResult {
    if cited == {} then ClaimResult(index, Some(NoEvidenceCited), {})
    else if cited - resolvable != {} then ClaimResult(index, Some(UnresolvableEvidenceId), cited - resolvable)
    else ClaimResult(index, None, {})
  }

  /** verify_claims: one verdict per claim, in order; the report passes exactly when every claim
      cites something and everything it cites resolves. */
  method VerifyClaims(claims: seq<set<string>>, resolvable: set<string>) returns (passed: bool, results: seq<ClaimResult>)
    ensures |results| == |claims|
    ensures forall i | 0 <= i < |claims| :: results[i] == JudgeClaim(i, claims[i], resolvable)
    ensures passed <==> forall i | 0 <= i < |claims| :: claims[i] != {} && claims[i] <= resolvable
  {
    results := [];
    passed := true;
    for index := 0 to |claims|
      invariant |results| == index
      invariant forall i | 0 <= i < index :: results[i] == JudgeClaim(i, claims[i], resolvable)
      invariant passed <==> forall i | 0 <= i < index :: claims[i] != {} && claims[i] <= resolvable
    {
      ClaimPasses(index, claims[index], resolvable);
      if claims[index] == {} {
        results := results + [ClaimResult(index, Some(NoEvidenceCited), {})];
        passed := false;
        continue;
      }
      var unresolvable := claims[index] - resolvable;
      if unresolvable != {} {
        results := results + [ClaimResult(index, Some(UnresolvableEvidenceId), unresolvable)];
        passed := false;
        continue;
      }
      results := results + [ClaimResult(index, None, {})];
    }
  }

  lemma ClaimPasses(index: nat, cited: set<string>, resolvable: set<string>)
    ensures JudgeClaim(index, cited, resolvable).reason == None <==> cited != {} && cited <= resolvable
  {
    if cited - resolvable == {} {
      forall id | id in cited ensures id in resolvable {
        assert id !in cited - resolvable;
      }
    }
  }

  // ------------------------------------------------------------------
  // The gate's checks
  // ------------------------------------------------------------------

  function CheckBindings(memo: EnforcementMemo, pack: EvidencePack, corpus: PolicyCorpus): seq<GateFailure> {
    (if memo.packDigest != pack.contentDigest then [GateFailure(SchemaInvalid, None)] else [])
    + (if memo.corpusSha256 != corpus.sha256 then [GateFailure(SchemaInvalid, None)] else [])
  }

  // Facts are claims, and so is any sentence that points at evidence.
  predicate IsClaim(s: MemoSentence) { s.role == Fact || s.evidenceIds != {} }

  function CheckClaims(sentences: seq<MemoSentence>, pack: EvidencePack): seq<GateFailure> {
    if sentences == [] then []
    else
      var s := sentences[0];
      (if IsClaim(s) && JudgeClaim(0, s.evidenceIds, pack.RecordIds()).reason.Some?
       then [GateFailure(UnverifiedClaim, Some(s.index))] else [])
      + CheckClaims(sentences[1..], pack)
  }

  predicate CitationHolds(s: MemoSentence, corpus: PolicyCorpus) {
    if s.citation == None then s.role != PolicyGround else ResolveCitation(s.citation.value, corpus) == None
  }

  function CheckCitations(sentences: seq<MemoSentence>, corpus: PolicyCorpus): seq<GateFailure> {
    if sentences == [] then []
    else
      (if CitationHolds(sentences[0], corpus) then [] else [GateFailure(UnverifiedClaim, Some(sentences[0].index))])
      + CheckCitations(sentences[1..], corpus)
  }

  /** memo_check: a signed memo is never re-gated, a mismatched binding makes the rest meaningless,
      and otherwise every failing sentence is reported. */
  function MemoCheck(memo: EnforcementMemo, pack: EvidencePack, corpus: PolicyCorpus): seq<GateFailure> {
    if memo.status == Signed then [GateFailure(SchemaInvalid, None)]
    else
      var bindings := CheckBindings(memo, pack, corpus);
      if bindings != [] then bindings
      else CheckClaims(memo.sentences, pack) + CheckCitations(memo.sentences, corpus)
  }

  /** memo_checker: the checker closed over the evidence pack and the corpus in scope. */
  function MemoChecker(pack: EvidencePack, corpus: PolicyCorpus): Artifact -> CheckAnswer {
    (a: Artifact) =>
      if a.MemoArtifact? then Found(MemoCheck(a.memo, pack, corpus)) else Found([GateFailure(SchemaInvalid, None)])
  }

  predicate ClaimHolds(s: MemoSentence, pack: EvidencePack) {
    IsClaim(s) ==> s.evidenceIds != {} && s.evidenceIds <= pack.RecordIds()
  }

  /** A memo every sentence of which is supported. */
  ghost predicate Supported(memo: EnforcementMemo, pack: EvidencePack, corpus: PolicyCorpus) {
    && memo.status == Draft
    && memo.packDigest == pack.contentDigest && memo.corpusSha256 == corpus.sha256
    && (forall s | s in memo.sentences && s.role == Fact :: s.evidenceIds != {})
    && (forall s | s in memo.sentences :: s.evidenceIds <= pack.RecordIds())
    && (forall s | s in memo.sentences && s.role == PolicyGround :: s.citation.Some?)
    && (forall s | s in memo.sentences && s.citation.Some? :: ResolveCitation(s.citation.value, corpus) == None)
  }

  lemma {:induction false} ClaimsReported(sentences: seq<MemoSentence>, pack: EvidencePack, f: GateFailure)
    ensures f in CheckClaims(sentences, pack)
            <==> exists s :: s in sentences && !ClaimHolds(s, pack) && f == GateFailure(UnverifiedClaim, Some(s.index))
  {
    if sentences != [] {
      ClaimsReported(sentences[1..], pack, f);
      ClaimPasses(0, sentences[0].evidenceIds, pack.RecordIds());
      assert sentences == [sentences[0]] + sentences[1..];
    }
  }

  lemma {:induction false} CitationsReported(sentences: seq<MemoSentence>, corpus: PolicyCorpus, f: GateFailure)
    ensures f in CheckCitations(sentences, corpus)
            <==> exists s :: s in sentences && !CitationHolds(s, corpus) && f == GateFailure(UnverifiedClaim, Some(s.index))
  {
    hide ResolveCitation;
    if sentences != [] {
      CitationsReported(sentences[1..], corpus, f);
      assert sentences == [sentences[0]] + sentences[1..];
    }
  }

  /** A gated draft with sound bindings is told about every failing sentence and about no other. */
  lemma EveryDefectIsNamed(memo: EnforcementMemo, pack: EvidencePack, corpus: PolicyCorpus, index: nat)
    requires memo.status == Draft && CheckBindings(memo, pack, corpus) == []
    ensures GateFailure(UnverifiedClaim, Some(index)) in MemoCheck(memo, pack, corpus)
            <==> exists s :: s in memo.sentences && s.index == index
                             && !(ClaimHolds(s, pack) && CitationHolds(s, corpus))
  {
    hide CitationHolds;
    var f := GateFailure(UnverifiedClaim, Some(index));
    ClaimsReported(memo.sentences, pack, f);
    CitationsReported(memo.sentences, corpus, f);
  }

  /** The gate accepts a memo exactly when every part of it is supported. */
  lemma MemoCheckMeaning(memo: EnforcementMemo, pack: EvidencePack, corpus: PolicyCorpus)
    ensures MemoCheck(memo, pack, corpus) == [] <==> Supported(memo, pack, corpus)
  {
    hide ResolveCitation;
    var claims, citations := CheckClaims(memo.sentences, pack), CheckCitations(memo.sentences, corpus);
    if claims != [] {
      ClaimsReported(memo.sentences, pack, claims[0]);
    }
    if citations != [] {
      CitationsReported(memo.sentences, corpus, citations[0]);
    }
    forall s | s in memo.sentences
      ensures claims == [] ==> ClaimHolds(s, pack)
      ensures citations == [] ==> CitationHolds(s, corpus)
    {
      ClaimsReported(memo.sentences, pack, GateFailure(UnverifiedClaim, Some(s.index)));
      CitationsReported(memo.sentences, corpus, GateFailure(UnverifiedClaim, Some(s.index)));
    }
  }

  // ------------------------------------------------------------------
  // What each failure means
  // ------------------------------------------------------------------

  /** Why a claim fails: it cites nothing, or something it cites does not resolve, and then exactly that. */
  lemma ClaimReasons(index: nat, cited: set<string>, resolvable: set<string>)
    ensures var r := JudgeClaim(index, cited, resolvable);
            && r.index == index
            && (r.reason == Some(NoEvidenceCited) <==> cited == {})
            && (r.reason == Some(UnresolvableEvidenceId) <==> exists id :: id in cited && id !in resolvable)
            && (forall id :: id in r.unresolvable <==> id in cited && id !in resolvable)
  {
    if id :| id in cited && id !in resolvable {
      assert id in cited - resolvable;
    }
    if cited - resolvable != {} {
      var id :| id in cited - resolvable;
    }
  }

  /** Why a citation fails: no document has its digest, or that document has no such clause, or the excerpt is longer
      than fifteen words or shorter than four, or it is not there; checked in this order. */
  lemma CitationReasons(citation: PolicyCitation, corpus: PolicyCorpus)
    ensures var r := ResolveCitation(citation, corpus);
            var document, words := FindDocument(corpus.documents, citation.contentDigest), |Words(citation.excerpt)|;
            && (r == Some(UnknownDocument) <==> forall d | d in corpus.documents :: d.contentDigest != citation.contentDigest)
            && (r == Some(PhantomAnchor) <==>
                  document.Some? && forall c | c in document.value.clauses :: c.anchor != citation.anchor)
            && (r == Some(ExcerptTooLong) ==> words > 15)
            && (r == Some(ExcerptTooShort) ==> words < 4)
            && (r in {None, Some(ExcerptNotInClause)} ==> 4 <= words <= 15)
            && (r == None || r == Some(ExcerptNotInClause) || r == Some(ExcerptTooLong) || r == Some(ExcerptTooShort) <==>
                  document.Some? && exists c :: c in document.value.clauses && c.anchor == citation.anchor)
  {
    hide Words, IsContiguousQuotation;
    FindDocumentFinds(corpus.documents, citation.contentDigest);
    var document := FindDocument(corpus.documents, citation.contentDigest);
    if document.Some? {
      FindClauseFinds(document.value.clauses, citation.anchor);
    }
  }

  /** A memo that was signed, or whose bindings do not match, is refused as a whole: one schema failure, one more
      if neither binding matches, and no sentence is blamed. */
  lemma WholeMemoRefused(memo: EnforcementMemo, pack: EvidencePack, corpus: PolicyCorpus)
    ensures var wrongPack, wrongCorpus := memo.packDigest != pack.contentDigest, memo.corpusSha256 != corpus.sha256;
            var whole := GateFailure(SchemaInvalid, None);
            && (memo.status == Signed ==> MemoCheck(memo, pack, corpus) == [whole])
            && (memo.status == Draft && wrongPack != wrongCorpus ==> MemoCheck(memo, pack, corpus) == [whole])
            && (memo.status == Draft && wrongPack && wrongCorpus ==> MemoCheck(memo, pack, corpus) == [whole, whole])
  {
    hide CheckClaims, CheckCitations;
  }

  /** The checker lets through supported memos and nothing else; what is no memo is a schema failure. */
  lemma CheckerAccepts(artifact: Artifact, pack: EvidencePack, corpus: PolicyCorpus)
    ensures MemoChecker(pack, corpus)(artifact) == Found([]) <==> artifact.MemoArtifact? && Supported(artifact.memo, pack, corpus)
    ensures !artifact.MemoArtifact? ==> MemoChecker(pack, corpus)(artifact) == Found([GateFailure(SchemaInvalid, None)])
  {
    hide MemoCheck, Supported;
    if artifact.MemoArtifact? {
      MemoCheckMeaning(artifact.memo, pack, corpus);
    }
  }
}
